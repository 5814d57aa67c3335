/** The ticket level enumeration: a PHP string-backed enum with three cases. */
module Levels {
  import opened Outcomes

  datatype Level = LevelOne | LevelTwo | LevelThree

  /** The backing string of a case (PHP's `->value`); each equals its case name. */
  function Value(l: Level): (s: string)
    ensures |s| > 5 && s[..5] == "Level"
    ensures l == LevelOne <==> s[5..] == "One"
    ensures l == LevelTwo <==> s[5..] == "Two"
    ensures l == LevelThree <==> s[5..] == "Three"
  {
    match l
    case LevelOne => "LevelOne"
    case LevelTwo => "LevelTwo"
    case LevelThree => "LevelThree"
  }

  /** PHP's built-in `tryFrom` of a backed enum: the case whose backing string is `s`, if any. */
  function TryFrom(s: string): (r: Option<Level>)
    ensures r.Some? ==> Value(r.value) == s
    ensures r.None? ==> forall l: Level :: Value(l) != s
  {
    if s == "LevelOne" then Some(LevelOne)
    else if s == "LevelTwo" then Some(LevelTwo)
    else if s == "LevelThree" then Some(LevelThree)
    else None
  }

  /** Every case is recovered from its backing string. */
  lemma ValueRoundTrip(l: Level)
    ensures TryFrom(Value(l)) == Some(l)
  {
  }

  /** The backing strings are pairwise distinct, so comparing `->value` strings is the same as
      comparing the cases themselves. */
  lemma ValueInjective(a: Level, b: Level)
    ensures Value(a) == Value(b) <==> a == b
  {
    ValueRoundTrip(a);
    ValueRoundTrip(b);
  }
}
