/** The encoder controller that the control engine drives. Creating or activating an encoder may fail at any time:
    `verdicts` lists the answers to come. Activating one makes exactly that one active, releasing one inactive. */
module Encoders {
  import opened Packets

  datatype EncoderCall = Create(id: nat) | Activate(id: nat) | Release(id: nat)

  /** After the listed verdicts every call is accepted. */
  datatype EncoderState = EncoderState(active: set<nat>, verdicts: seq<bool>, trace: seq<EncoderCall>)
  {
    predicate Willing() {
      |verdicts| == 0 || verdicts[0]
    }

    function Asked(): EncoderState {
      if |verdicts| == 0 then this else this.(verdicts := verdicts[1..])
    }
  }

  function Created(x: EncoderState, id: nat): (EncoderState, bool) {
    if x.Willing() then (x.Asked().(trace := x.trace + [Create(id)]), true) else (x.Asked(), false)
  }

  function Activated(x: EncoderState, id: nat): (EncoderState, bool) {
    if x.Willing() then (x.Asked().(active := x.active + {id}, trace := x.trace + [Activate(id)]), true)
    else (x.Asked(), false)
  }

  function Released(x: EncoderState, id: nat): EncoderState {
    x.(active := x.active - {id}, trace := x.trace + [Release(id)])
  }

  /** The encoders left active by a sequence of calls; none if one activates an active or releases an inactive one. */
  ghost function Played(trace: seq<EncoderCall>): Option<set<nat>> {
    if |trace| == 0 then Some({})
    else
      var before := Played(trace[..|trace| - 1]);
      if before.None? then None
      else
        match trace[|trace| - 1]
        case Create(_) => before
        case Activate(id) => if id in before.value then None else Some(before.value + {id})
        case Release(id) => if id !in before.value then None else Some(before.value - {id})
  }

  lemma PlayedSnoc(trace: seq<EncoderCall>, c: EncoderCall)
    ensures Played(trace + [c]) ==
            if Played(trace).None? then None
            else
              match c
              case Create(_) => Played(trace)
              case Activate(id) => if id in Played(trace).value then None else Some(Played(trace).value + {id})
              case Release(id) => if id !in Played(trace).value then None else Some(Played(trace).value - {id})
  {
    assert (trace + [c])[..|trace|] == trace;
  }

  // ---- what a stretch of calls may do

  /** No call starts or stops an encoder of `keep`. */
  ghost predicate Untouched(calls: seq<EncoderCall>, keep: set<nat>) {
    forall c :: c in calls ==> c.Create? || c.id !in keep
  }

  ghost predicate NoActivate(calls: seq<EncoderCall>) {
    forall c :: c in calls ==> !c.Activate?
  }

  /** The trace grew by calls that start only encoders of `starts` and stop none of `keeps`. */
  ghost predicate Extends(r: seq<EncoderCall>, t: seq<EncoderCall>, starts: set<nat>, keeps: set<nat>) {
    && r <= t
    && forall c :: c in t[|r|..] ==> (c.Activate? ==> c.id in starts) && (c.Release? ==> c.id !in keeps)
  }

  lemma TraceSplit(r: seq<EncoderCall>, s: seq<EncoderCall>, t: seq<EncoderCall>)
    requires r <= s <= t
    ensures t[|r|..] == s[|r|..] + t[|s|..]
  {
  }

  lemma ExtendsTwice(r: seq<EncoderCall>, s: seq<EncoderCall>, t: seq<EncoderCall>, a: set<nat>, k: set<nat>,
                     b: set<nat>, l: set<nat>)
    requires Extends(r, s, a, k) && Extends(s, t, b, l)
    ensures Extends(r, t, a + b, k * l)
  {
    TraceSplit(r, s, t);
  }

  lemma ExtendsByOne(r: seq<EncoderCall>, s: seq<EncoderCall>, c: EncoderCall, a: set<nat>, k: set<nat>)
    requires Extends(r, s, a, k) && (c.Activate? ==> c.id in a) && (c.Release? ==> c.id !in k)
    ensures Extends(r, s + [c], a, k)
  {
    assert (s + [c])[|r|..] == s[|r|..] + [c];
  }

  lemma ExtendsItself(r: seq<EncoderCall>, a: set<nat>, k: set<nat>)
    ensures Extends(r, r, a, k)
  {
  }

  class EncoderController {
    var active: set<nat>
    var verdicts: seq<bool>
    ghost var trace: seq<EncoderCall>

    ghost function View(): EncoderState
      reads this
    {
      EncoderState(active, verdicts, trace)
    }

    /** No call so far activated an active encoder or released an inactive one. */
    ghost predicate Valid()
      reads this
    {
      Played(trace) == Some(active)
    }

    constructor (verdicts: seq<bool>)
      ensures Valid() && View() == EncoderState({}, verdicts, [])
    {
      active, this.verdicts, trace := {}, verdicts, [];
    }

    method Answer() returns (ok: bool)
      modifies `verdicts
      ensures ok == old(View()).Willing() && View() == old(View()).Asked()
    {
      ok := |verdicts| == 0 || verdicts[0];
      if |verdicts| > 0 {
        verdicts := verdicts[1..];
      }
    }

    method EnsureCreated(id: nat) returns (ok: bool)
      requires Valid()
      modifies this
      ensures Valid() && (View(), ok) == Created(old(View()), id)
    {
      ok := Answer();
      if ok {
        PlayedSnoc(trace, Create(id));
        trace := trace + [Create(id)];
      }
    }

    method Activate(id: nat) returns (ok: bool)
      requires Valid() && id !in active
      modifies this
      ensures Valid() && (View(), ok) == Activated(old(View()), id)
    {
      ok := Answer();
      if ok {
        PlayedSnoc(trace, EncoderCall.Activate(id));
        active, trace := active + {id}, trace + [EncoderCall.Activate(id)];
      }
    }

    method Release(id: nat)
      requires Valid() && id in active
      modifies this
      ensures Valid() && View() == Released(old(View()), id)
    {
      PlayedSnoc(trace, EncoderCall.Release(id));
      active, trace := active - {id}, trace + [EncoderCall.Release(id)];
    }
  }
}
