/**
 * The table of vote directions and the lookup `dict(VOTE_DIRECTIONS)[direction]`
 * the handler uses to turn a direction token into a vote value.
 */
module VoteDirections {
  import opened Wrappers

  /** The direction tokens and the vote value each stands for. */
  const VOTE_DIRECTIONS: seq<(string, int)> := [("up", 1), ("down", -1), ("clear", 0)]

  /**
   * Python's `dict(pairs)`: every first component becomes a key, and a key
   * that occurs more than once keeps the value of its last pair.
   */
  function DictOf(pairs: seq<(string, int)>): (d: map<string, int>)
    ensures |pairs| > 0 ==> pairs[|pairs| - 1].0 in d && d[pairs[|pairs| - 1].0] == pairs[|pairs| - 1].1
    ensures forall k :: k in d ==> exists i :: 0 <= i < |pairs| && pairs[i].0 == k
  {
    if pairs == [] then map[]
    else
      var init, last := pairs[..|pairs| - 1], pairs[|pairs| - 1];
      assert forall i :: 0 <= i < |init| ==> init[i] == pairs[i];
      DictOf(init)[last.0 := last.1]
  }

  /** Every first component is a key, and it maps to the value of its last pair. */
  lemma {:induction false} DictOfLastWins(pairs: seq<(string, int)>, i: nat)
    requires i < |pairs|
    requires forall j :: i < j < |pairs| ==> pairs[j].0 != pairs[i].0
    ensures pairs[i].0 in DictOf(pairs) && DictOf(pairs)[pairs[i].0] == pairs[i].1
  {
    if i < |pairs| - 1 {
      var init := pairs[..|pairs| - 1];
      assert init[i] == pairs[i];
      forall j | i < j < |init| ensures init[j].0 != init[i].0 {
        assert init[j] == pairs[j];
      }
      DictOfLastWins(init, i);
    }
  }

  /** The direction table as a dictionary. */
  lemma DirectionDict()
    ensures DictOf(VOTE_DIRECTIONS) == map["up" := 1, "down" := -1, "clear" := 0]
  {
    var d := DictOf(VOTE_DIRECTIONS);
    assert "up" != "down" && "up" != "clear" && "down" != "clear";
    DictOfLastWins(VOTE_DIRECTIONS, 0);
    DictOfLastWins(VOTE_DIRECTIONS, 1);
    DictOfLastWins(VOTE_DIRECTIONS, 2);
    assert d.Keys == {"up", "down", "clear"};
  }

  /** The vote value of a direction token, or None when the token is not in the table. */
  function ParseDirection(token: string): (v: Option<int>)
    ensures v.Some? <==> exists i :: 0 <= i < |VOTE_DIRECTIONS| && VOTE_DIRECTIONS[i].0 == token
    ensures v.Some? ==> exists i :: 0 <= i < |VOTE_DIRECTIONS| && VOTE_DIRECTIONS[i] == (token, v.value)
  {
    DirectionDict();
    assert VOTE_DIRECTIONS[0] == ("up", 1) && VOTE_DIRECTIONS[1] == ("down", -1) && VOTE_DIRECTIONS[2] == ("clear", 0);
    var d := DictOf(VOTE_DIRECTIONS);
    if token in d then Some(d[token]) else None
  }

  /** `up` is 1, `down` is -1, `clear` is 0, and nothing else is a direction. */
  lemma ParseDirectionTable(token: string)
    ensures ParseDirection(token) ==
      if token == "up" then Some(1)
      else if token == "down" then Some(-1)
      else if token == "clear" then Some(0)
      else None
  {
    DirectionDict();
  }

  /** Every vote value the table yields is one of the three the handler dispatches on. */
  lemma ParseDirectionRange(token: string)
    ensures ParseDirection(token).Some? ==> ParseDirection(token).value in {1, -1, 0}
  {
    ParseDirectionTable(token);
  }
}
