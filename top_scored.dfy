/** The top-scored orphanages route: the `limit` query parameter is parsed
    and range-checked, then the ranking is returned with its length. */
module TopScored {
  import opened Text
  import opened Http
  import opened Store
  import opened Score

  datatype TopScoredBody = TopScoredBody(data: seq<OrphanageProfile>, count: nat)

  const LimitRangeError := "Limit must be between 1 and 50"
  const FetchFailed := "Failed to fetch top orphanages"

  /** `GET /api/orphanages/top-scored` over the profile table as the store
      reads it. A limit outside 1..50 is a 400; a limit that does not parse
      (NaN) is not caught by the range test and the store then rejects the
      query, which the handler reports as a 500. */
  function GetTopScored(limitParam: Option<string>, rows: seq<OrphanageProfile>): (r: Response<TopScoredBody>)
    ensures r == Err(400, LimitRangeError) <==>
              ParseInt(OrDefault(limitParam, "10")).Int? &&
              (ParseInt(OrDefault(limitParam, "10")).n < 1 || ParseInt(OrDefault(limitParam, "10")).n > 50)
    ensures r == Err(500, FetchFailed) <==> ParseInt(OrDefault(limitParam, "10")).NaN?
    ensures r.Ok? ==> 1 <= ParseInt(OrDefault(limitParam, "10")).n <= 50 &&
                      r.value.count == |r.value.data| <= ParseInt(OrDefault(limitParam, "10")).n
    ensures r.Ok? ==> forall i :: 0 <= i < |r.value.data| ==> IsVerified(r.value.data[i])
    ensures r.Ok? ==> r.value.data == TopOrphanages(rows, ParseInt(OrDefault(limitParam, "10")).n)
  {
    var limit := ParseInt(OrDefault(limitParam, "10"));
    if limit.Int? && (limit.n < 1 || limit.n > 50) then Err(400, LimitRangeError)
    else if limit.NaN? then Err(500, FetchFailed)
    else
      var data := TopOrphanages(rows, limit.n);
      TopOrphanagesSpec(rows, limit.n);
      Ok(TopScoredBody(data, |data|))
  }

  /** Without a limit the route returns the ten best verified profiles. */
  lemma DefaultLimitIsTen(rows: seq<OrphanageProfile>)
    ensures GetTopScored(None, rows) == Ok(TopScoredBody(TopOrphanages(rows, 10), |TopOrphanages(rows, 10)|))
  {
    assert OrDefault(None, "10") == NatToString(10);
    ParseIntOfNatToString(10);
  }

  /** An explicit limit in range is passed to the ranking as it is. */
  lemma LimitInRange(n: nat, rows: seq<OrphanageProfile>)
    requires 1 <= n <= 50
    ensures GetTopScored(Some(NatToString(n)), rows) == Ok(TopScoredBody(TopOrphanages(rows, n), |TopOrphanages(rows, n)|))
  {
    ParseIntOfNatToString(n);
  }

  /** A word instead of a number is not rejected as out of range. */
  lemma NonNumericLimitNotRangeChecked(rows: seq<OrphanageProfile>)
    ensures GetTopScored(Some("ten"), rows) == Err(500, FetchFailed)
  {
    assert TrimStart("ten") == "ten";
    assert DigitRun("ten", 10) == 0;
  }
}
