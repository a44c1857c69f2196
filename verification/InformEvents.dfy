/**
  The event codes of pending Informs. Each is made by appending to the configured slice, and slices
  share backing arrays: whether a pending Inform keeps its codes depends on spare capacity.
 */
module InformEvents {

  /** Every backing array ever allocated, by number; a slice is a prefix of one of them. */
  type Heap = seq<seq<string>>

  datatype Slice = Slice(backing: nat, len: nat)

  predicate InHeap(h: Heap, s: Slice) {
    s.backing < |h| && s.len <= |h[s.backing]|
  }

  function View(h: Heap, s: Slice): seq<string>
    requires InHeap(h, s)
  {
    h[s.backing][..s.len]
  }

  predicate Spare(h: Heap, s: Slice)
    requires InHeap(h, s)
  {
    s.len < |h[s.backing]|
  }

  /** The built-in append: in place when there is room, else into a new array with some more room. */
  function Append(h: Heap, s: Slice, x: string, room: seq<string>): (r: (Heap, Slice))
    requires InHeap(h, s)
    ensures InHeap(r.0, r.1) && View(r.0, r.1) == View(h, s) + [x]
  {
    if Spare(h, s) then (h[s.backing := h[s.backing][s.len := x]], Slice(s.backing, s.len + 1))
    else (h + [View(h, s) + [x] + room], Slice(|h|, s.len + 1))
  }

  /** An Inform waiting to be sent, and the reason it was made for. */
  datatype Inform = Inform(codes: Slice, reason: string)

  /** What makes an Inform: a tick or a connection request; room is the allocator's choice. */
  datatype Cause = Cause(reason: string, room: seq<string>)

  const PERIODIC := Cause("2 PERIODIC", [])
  const REQUESTED := Cause("6 CONNECTION REQUEST", [])

  datatype State = State(heap: Heap, base: Slice, pending: seq<Inform>)

  predicate WellFormed(s: State) {
    InHeap(s.heap, s.base) && forall i :: 0 <= i < |s.pending| ==> InHeap(s.heap, s.pending[i].codes)
  }

  function Make(s: State, c: Cause): (t: State)
    requires WellFormed(s)
    ensures WellFormed(t)
  {
    var (heap, codes) := Append(s.heap, s.base, c.reason, c.room);
    State(heap, s.base, s.pending + [Inform(codes, c.reason)])
  }

  function Run(s: State, cs: seq<Cause>): (t: State)
    requires WellFormed(s)
    ensures WellFormed(t)
    decreases cs
  {
    if cs == [] then s else Run(Make(s, cs[0]), cs[1..])
  }

  /** Every pending Inform reads the configured codes followed by its own reason. */
  predicate Kept(s: State, codes: seq<string>)
    requires WellFormed(s)
  {
    && View(s.heap, s.base) == codes
    && forall i :: 0 <= i < |s.pending| ==> View(s.heap, s.pending[i].codes) == codes + [s.pending[i].reason]
  }

  lemma {:induction false} KeptWithoutSpare(s: State, cs: seq<Cause>, codes: seq<string>)
    requires WellFormed(s) && !Spare(s.heap, s.base) && Kept(s, codes)
    ensures Kept(Run(s, cs), codes) && !Spare(Run(s, cs).heap, Run(s, cs).base)
    decreases cs
  {
    if cs != [] {
      KeptWithoutSpare(Make(s, cs[0]), cs[1..], codes);
    }
  }

  lemma BrokenWithSpare(s: State)
    requires WellFormed(s) && Spare(s.heap, s.base) && s.pending == []
    ensures !Kept(Run(s, [PERIODIC, REQUESTED]), View(s.heap, s.base))
  {
    var one := Make(s, PERIODIC);
    var two := Make(one, REQUESTED);
    assert [PERIODIC, REQUESTED][1..] == [REQUESTED] && [REQUESTED][1..] == [];
    assert Run(one, [REQUESTED]) == Run(two, []) == two;
    assert two.pending[0].reason == "2 PERIODIC";
    assert View(two.heap, two.pending[0].codes)[s.base.len] == "6 CONNECTION REQUEST";
    assert "2 PERIODIC"[0] != "6 CONNECTION REQUEST"[0];
  }

  /**
    Main theorem. In every run of ticks and connection requests all pending Informs keep the configured
    codes followed by their own reason exactly when the configured slice has no spare capacity; with
    spare capacity a connection request rewrites the reason of the periodic Inform before it.
   */
  lemma InformsKeptIffNoSpare(s: State)
    requires WellFormed(s) && s.pending == []
    ensures (forall cs :: Kept(Run(s, cs), View(s.heap, s.base))) <==> !Spare(s.heap, s.base)
  {
    if Spare(s.heap, s.base) {
      BrokenWithSpare(s);
    } else {
      forall cs ensures Kept(Run(s, cs), View(s.heap, s.base)) {
        KeptWithoutSpare(s, cs, View(s.heap, s.base));
      }
    }
  }

  const DEFAULT_INTERVAL: int := 300

  /** The behavior object: its configured slice is never assigned, only copied and appended to. */
  class CwmpInforms {
    const informInterval: int
    var state: State

    ghost predicate Valid()
      reads this
    {
      informInterval > 0 && WellFormed(state)
    }

    constructor (interval: int, heap: Heap, codes: Slice)
      requires InHeap(heap, codes)
      ensures Valid() && state == State(heap, codes, [])
      ensures informInterval == if interval <= 0 then 300 else interval
    {
      informInterval := if interval <= 0 then DEFAULT_INTERVAL else interval;
      state := State(heap, codes, []);
    }

    /** A tick makes an Inform exactly when the interval divides it, and no action either way. */
    method OnTick(tick: nat, room: seq<string>)
      requires Valid()
      modifies this
      ensures Valid()
      ensures state == if tick % informInterval == 0 then Make(old(state), Cause("2 PERIODIC", room)) else old(state)
    {
      if tick % informInterval != 0 {
        return;
      }
      Request("2 PERIODIC", room);
    }

    method Request(reason: string, room: seq<string>)
      requires Valid()
      modifies this
      ensures Valid() && state == Make(old(state), Cause(reason, room))
      ensures !Spare(old(state.heap), old(state.base)) && Kept(old(state), View(old(state.heap), old(state.base))) ==>
                Kept(state, View(old(state.heap), old(state.base)))
    {
      var (heap, codes) := Append(state.heap, state.base, reason, room);
      state := State(heap, state.base, state.pending + [Inform(codes, reason)]);
    }
  }
}
