/** The difficulty policy: three tiers ranked by capability, and the single
    comparison that decides whether a field or style is "unlocked". */
module Difficulty {

  datatype Tier = Basic | Intermediate | Advanced

  /** Position of a tier in the ordered level list. */
  function Rank(t: Tier): nat {
    match t
    case Basic => 0
    case Intermediate => 1
    case Advanced => 2
  }

  /** A field that requires `required` is shown at the `current` tier:
      basic fields always, a field at its own tier, and everything at the
      advanced tier. */
  function ShowField(current: Tier, required: Tier): (r: bool)
    ensures r <==> required == Basic || required == current || current == Advanced
  {
    Rank(current) >= Rank(required)
  }

  /** The level names the tier selector stores as the current difficulty. */
  function Name(t: Tier): string {
    match t
    case Basic => "basic"
    case Intermediate => "intermediate"
    case Advanced => "advanced"
  }

  /** The level list the policy ranks names by. */
  const Levels: seq<string> := ["basic", "intermediate", "advanced"]

  /** Array `indexOf`: the first position of `x` in `xs`, or -1 when absent. */
  function IndexOf(xs: seq<string>, x: string): (r: int)
    ensures -1 <= r < |xs|
    ensures r == -1 <==> x !in xs
    ensures 0 <= r ==> xs[r] == x && forall j :: 0 <= j < r ==> xs[j] != x
  {
    if |xs| == 0 then -1
    else if xs[0] == x then 0
    else
      var k := IndexOf(xs[1..], x);
      if k == -1 then -1 else k + 1
  }

  /** The policy as written on level names: unknown names rank -1, so an
      unknown requirement is always met and an unknown difficulty meets
      only unknown requirements. */
  function ShowFieldByName(difficulty: string, reqLevel: string): (r: bool)
    ensures reqLevel !in Levels ==> r
    ensures difficulty !in Levels ==> (r <==> reqLevel !in Levels)
  {
    IndexOf(Levels, difficulty) >= IndexOf(Levels, reqLevel)
  }

  /** On the three real level names the name-based comparison is exactly
      the tier comparison. */
  lemma ShowFieldByNameAgrees(current: Tier, required: Tier)
    ensures ShowFieldByName(Name(current), Name(required)) <==> ShowField(current, required)
  {
    assert forall t :: IndexOf(Levels, Name(t)) == Rank(t) by {
      forall t ensures IndexOf(Levels, Name(t)) == Rank(t) {
        assert Levels[Rank(t)] == Name(t);
      }
    }
  }

  /** A requirement that is not one of the level names ranks -1 and is
      therefore satisfied by every difficulty, known or not. */
  lemma UnknownRequirementAlwaysShown(difficulty: string, reqLevel: string)
    requires reqLevel !in Levels
    ensures ShowFieldByName(difficulty, reqLevel)
  {
  }

  /** Raising the tier never hides a field that was shown. */
  lemma ShowFieldMonotone(t1: Tier, t2: Tier, required: Tier)
    requires Rank(t1) <= Rank(t2)
    requires ShowField(t1, required)
    ensures ShowField(t2, required)
  {
  }

  /** Basic fields are shown at every tier; advanced ones only at the
      advanced tier; intermediate ones at every tier but basic. */
  lemma ShowFieldTable(t: Tier)
    ensures ShowField(t, Basic)
    ensures ShowField(t, Intermediate) <==> t != Basic
    ensures ShowField(t, Advanced) <==> t == Advanced
  {
  }
}
