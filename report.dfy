/** The figures the end-of-run reports share. */
module Report {

  /** An exact fraction `num / den`. */
  datatype Ratio = Ratio(num: nat, den: nat)

  /** `success_rate = (ok / max(1, ok + failed)) * 100`, kept as the exact
      fraction `100 * ok / max(1, ok + failed)` instead of a float. */
  function SuccessRate(ok: nat, failed: nat): (r: Ratio)
    ensures r.den >= 1
    ensures r.num <= 100 * r.den
    ensures r.num == 0 <==> ok == 0
    ensures r.num == 100 * r.den <==> ok > 0 && failed == 0
    ensures ok + failed > 0 ==> r.num * (ok + failed) == 100 * ok * r.den
  {
    Ratio(100 * ok, if ok + failed > 0 then ok + failed else 1)
  }
}
