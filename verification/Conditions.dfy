/** Status conditions, as kept by meta.SetStatusCondition. */
module Conditions {
  datatype Condition = Condition(
    kind: string,
    status: bool,
    reason: string,
    message: string,
    generation: nat,
    since: nat)

  /** The status is declared `listType=map` keyed by type: no type occurs twice. */
  ghost predicate IsMap(cs: seq<Condition>) {
    forall i, j | 0 <= i < j < |cs| :: cs[i].kind != cs[j].kind
  }

  function IndexOf(cs: seq<Condition>, kind: string): (i: nat)
    ensures i <= |cs|
    ensures i < |cs| ==> cs[i].kind == kind
    ensures forall j | 0 <= j < i :: cs[j].kind != kind
  {
    if cs == [] || cs[0].kind == kind then 0 else 1 + IndexOf(cs[1..], kind)
  }

  /** `c.since` is the time of the call; an entry whose status does not flip keeps its own. */
  function Set(cs: seq<Condition>, c: Condition): seq<Condition> {
    var i := IndexOf(cs, c.kind);
    if i == |cs| then cs + [c]
    else if cs[i].status == c.status then cs[i := c.(since := cs[i].since)]
    else cs[i := c]
  }

  lemma SetKeepsMap(cs: seq<Condition>, c: Condition)
    requires IsMap(cs)
    ensures IsMap(Set(cs, c))
  {
    var i := IndexOf(cs, c.kind);
    if i < |cs| {
      forall j, k | 0 <= j < k < |cs| ensures Set(cs, c)[j].kind != Set(cs, c)[k].kind {
        assert cs[j].kind != cs[k].kind;
      }
    }
  }

  /** What a reader of the list sees: the entry of a type, or nothing. */
  function Lookup(cs: seq<Condition>, kind: string): seq<Condition> {
    var i := IndexOf(cs, kind);
    if i < |cs| then [cs[i]] else []
  }

  lemma LookupAt(cs: seq<Condition>, i: nat)
    requires IsMap(cs) && i < |cs|
    ensures Lookup(cs, cs[i].kind) == [cs[i]]
  {
    var j := IndexOf(cs, cs[i].kind);
    assert j <= i;
  }

  /** The new entry is found under its type, every other type is untouched, and the
      transition time moves exactly when the type is new or its status flips. */
  lemma SetIsKeyedUpdate(cs: seq<Condition>, c: Condition, kind: string)
    requires IsMap(cs)
    ensures kind != c.kind ==> Lookup(Set(cs, c), kind) == Lookup(cs, kind)
    ensures |Lookup(Set(cs, c), c.kind)| == 1
    ensures Lookup(Set(cs, c), c.kind)[0].(since := c.since) == c
    ensures Lookup(Set(cs, c), c.kind)[0].since ==
            if Lookup(cs, c.kind) != [] && Lookup(cs, c.kind)[0].status == c.status
            then Lookup(cs, c.kind)[0].since else c.since
  {
    SetKeepsMap(cs, c);
    var i, r := IndexOf(cs, c.kind), Set(cs, c);
    assert r[i].kind == c.kind;
    LookupAt(r, i);
    if kind != c.kind {
      var j := IndexOf(cs, kind);
      if j < |cs| {
        assert r[j] == cs[j];
        LookupAt(r, j);
      } else {
        assert forall n | 0 <= n < |r| :: r[n].kind != kind;
      }
    }
  }

  /** Setting the same condition again changes nothing, whatever the clock says. */
  lemma SetIsIdempotent(cs: seq<Condition>, c: Condition, later: nat)
    requires IsMap(cs)
    ensures Set(Set(cs, c), c.(since := later)) == Set(cs, c)
  {
    SetKeepsMap(cs, c);
    var i, r := IndexOf(cs, c.kind), Set(cs, c);
    assert r[i].kind == c.kind;
    var j := IndexOf(r, c.kind);
    assert j <= i;
  }
}
