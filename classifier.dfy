/** The nearest-prototype classifier of main: `min` over the prototypes keyed by
    the distance to the test value, then `.index` of the value found. */
module Classifier {

  /** abs(p - t). */
  function Distance(p: real, t: real): (d: real)
    ensures d >= 0.0
    ensures d == 0.0 <==> p == t
  {
    if p >= t then p - t else t - p
  }

  /** Where Python's min(protos, key=...) finds its result: it scans left to
      right and replaces its candidate only by a strictly closer one, so it keeps
      the first of the nearest prototypes. */
  function NearestPosition(protos: seq<real>, t: real): (k: nat)
    requires |protos| > 0
    ensures k < |protos|
    ensures forall j | 0 <= j < |protos| :: Distance(protos[k], t) <= Distance(protos[j], t)
    ensures forall j | 0 <= j < k :: Distance(protos[k], t) < Distance(protos[j], t)
  {
    if |protos| == 1 then 0
    else
      var k := NearestPosition(protos[..|protos| - 1], t);
      var last := |protos| - 1;
      if Distance(protos[last], t) < Distance(protos[k], t) then last else k
  }

  /** The value min(protos, key=lambda x: abs(x - t)) returns. */
  function ClosestValue(protos: seq<real>, t: real): (v: real)
    requires |protos| > 0
    ensures v in protos
    ensures forall j | 0 <= j < |protos| :: Distance(v, t) <= Distance(protos[j], t)
  {
    protos[NearestPosition(protos, t)]
  }

  /** Python's list.index: the first position holding v. */
  function IndexOf(s: seq<real>, v: real): (i: nat)
    requires v in s
    ensures i < |s| && s[i] == v
    ensures forall j | 0 <= j < i :: s[j] != v
  {
    if s[0] == v then 0 else 1 + IndexOf(s[1..], v)
  }

  /** The speaker position main assigns to the test value t: the smallest
      position whose prototype is at minimal distance from t. */
  function Classify(protos: seq<real>, t: real): (k: nat)
    requires |protos| > 0
    ensures k < |protos|
    ensures forall j | 0 <= j < |protos| :: Distance(protos[k], t) <= Distance(protos[j], t)
    ensures forall j | 0 <= j < k :: Distance(protos[k], t) < Distance(protos[j], t)
  {
    IndexOf(protos, ClosestValue(protos, t))
  }

  /** The first minimal-distance position is the only one with both properties
      of Classify, so `.index` after `min` lands where `min` found its value. */
  lemma ClassifyIsNearestPosition(protos: seq<real>, t: real)
    requires |protos| > 0
    ensures Classify(protos, t) == NearestPosition(protos, t)
  {
  }
}
