/** The integer running mean of round-trip times (server/balancer.rs:54-58 and 277-290). */
module RunningMean {
  import opened Arithmetic
  import opened Orders
  import opened Records
  import opened Runs

  datatype Rtt = Rtt(rtt: nat, n: nat)

  const EMPTY := Rtt(0, 0)

  /** One sample: the division truncates. */
  function Add(v: Rtt, sample: nat): Rtt {
    Rtt((v.n * v.rtt + sample) / (v.n + 1), v.n + 1)
  }

  /** The value after a whole sequence of samples. */
  function After(samples: seq<nat>): Rtt {
    if samples == [] then EMPTY
    else Add(After(samples[..|samples| - 1]), samples[|samples| - 1])
  }

  lemma {:induction false} CountsSamples(samples: seq<nat>)
    ensures After(samples).n == |samples|
  {
    if samples != [] { CountsSamples(samples[..|samples| - 1]); }
  }

  /** The mean stays between any lower and any upper bound of the samples. */
  lemma {:induction false} WithinSamples(samples: seq<nat>, lo: nat, hi: nat)
    requires samples != []
    requires forall i :: 0 <= i < |samples| ==> lo <= samples[i] <= hi
    ensures lo <= After(samples).rtt <= hi
  {
    var earlier := samples[..|samples| - 1];
    CountsSamples(earlier);
    if earlier != [] { WithinSamples(earlier, lo, hi); }
    AddWithin(After(earlier), samples[|samples| - 1], lo, hi);
  }

  lemma AddWithin(v: Rtt, sample: nat, lo: nat, hi: nat)
    requires lo <= sample <= hi && (v.n > 0 ==> lo <= v.rtt <= hi)
    ensures lo <= Add(v, sample).rtt <= hi
  {
    if v.n > 0 {
      MulMonotone(lo, v.rtt, v.n);
      MulMonotone(v.rtt, hi, v.n);
    }
    assert (v.n + 1) * lo == v.n * lo + lo && (v.n + 1) * hi == v.n * hi + hi;
    QuotientBetween(v.n * v.rtt + sample, v.n + 1, lo, hi);
  }

  /** One truncating division loses less than its divisor. */
  lemma AddLoss(v: Rtt, sample: nat)
    ensures var sum, n := v.n * v.rtt + sample, v.n + 1;
            sum - v.n <= n * Add(v, sample).rtt <= sum
  {
  }

  /** Against the true mean `Total / n`: never above it, and behind by at most `(n - 1) / 2`
      (both sides multiplied by `2 * n`). */
  lemma {:induction false} LagBound(samples: seq<nat>)
    ensures var n := |samples|;
            && n * After(samples).rtt <= Total(samples)
            && 2 * (Total(samples) - n * After(samples).rtt) <= n * n - n
  {
    if samples != [] {
      var earlier, n := samples[..|samples| - 1], |samples| - 1;
      LagBound(earlier);
      CountsSamples(earlier);
      AddLoss(After(earlier), samples[n]);
      assert (n + 1) * (n + 1) - (n + 1) == n * n - n + 2 * n;
    }
  }

  /** The samples `m, m + 1, m + 2, ...`. */
  function Ramp(m: nat, n: nat): (s: seq<nat>)
    ensures |s| == n
  {
    if n == 0 then [] else Ramp(m, n - 1) + [m + n - 1]
  }

  lemma RampStep(m: nat, k: nat)
    ensures Add(Rtt(m, k), m + k) == Rtt(m, k + 1)
  {
    assert k * m + (m + k) == (k + 1) * m + k;
    QuotientOfRamp(k + 1, m, k);
  }

  lemma {:induction false} RampValue(m: nat, n: nat)
    requires n > 0
    ensures After(Ramp(m, n)) == Rtt(m, n)
  {
    assert Ramp(m, n)[..n - 1] == Ramp(m, n - 1);
    RampStep(m, n - 1);
    if n == 1 {
      assert After(Ramp(m, 0)) == EMPTY;
    } else {
      RampValue(m, n - 1);
    }
  }

  lemma {:induction false} RampTotal(m: nat, n: nat)
    ensures 2 * Total(Ramp(m, n)) == 2 * (n * m) + n * n - n
  {
    if n > 0 {
      assert Ramp(m, n)[..n - 1] == Ramp(m, n - 1);
      RampTotal(m, n - 1);
      assert n * m == (n - 1) * m + m;
      assert n * n - n == (n - 1) * (n - 1) - (n - 1) + 2 * (n - 1);
    }
  }

  /** On a ramp the running value never moves, so the lag bound is attained for every length. */
  lemma LagAttained(m: nat, n: nat)
    requires n > 0
    ensures After(Ramp(m, n)) == Rtt(m, n)
    ensures 2 * (Total(Ramp(m, n)) - n * After(Ramp(m, n)).rtt) == n * n - n
  {
    RampValue(m, n);
    RampTotal(m, n);
  }

  lemma QuotientOfRamp(n: nat, m: nat, k: nat)
    requires k < n
    ensures (n * m + k) / n == m
  {
    assert n * (m + 1) == n * m + n;
    QuotientBetween(n * m + k, n, m, m + 1);
    QuotientBounds(n * m + k, n);
  }

  // The balancer's table of running means.

  type Table = map<Identity, map<string, Rtt>>

  /** A consumer reports the round-trip time to an address. */
  datatype Report = Report(id: Identity, ip: string, rtt: nat)

  /** A slot that does not exist yet counts as empty. */
  function Slot(table: Table, id: Identity, ip: string): Rtt {
    if id in table && ip in table[id] then table[id][ip] else EMPTY
  }

  function Update(table: Table, report: Report): Table {
    var slots := if report.id in table then table[report.id] else map[];
    table[report.id := slots[report.ip := Add(Slot(table, report.id, report.ip), report.rtt)]]
  }

  function Reported(reports: seq<Report>): Table {
    if reports == [] then map[] else Update(Reported(Front(reports)), Last(reports))
  }

  /** The samples of one consumer for one address, in order. */
  function SamplesOf(reports: seq<Report>, id: Identity, ip: string): seq<nat> {
    if reports == [] then []
    else
      var earlier, last := SamplesOf(Front(reports), id, ip), Last(reports);
      if last.id == id && last.ip == ip then earlier + [last.rtt] else earlier
  }

  lemma SlotOfUpdate(table: Table, report: Report, id: Identity, ip: string)
    ensures var slot := Slot(table, id, ip);
            Slot(Update(table, report), id, ip)
            == if report.id == id && report.ip == ip then Add(slot, report.rtt) else slot
  {
  }

  lemma AfterOneMore(samples: seq<nat>, sample: nat)
    ensures After(samples + [sample]) == Add(After(samples), sample)
  {
  }

  /** After any reports in any order, each slot is the running mean of its own samples: those of other
      consumers or addresses do not mix in, and none is lost. */
  lemma {:induction false} SlotIsRunningMean(reports: seq<Report>, id: Identity, ip: string)
    ensures Slot(Reported(reports), id, ip) == After(SamplesOf(reports, id, ip))
  {
    if reports != [] {
      SlotIsRunningMean(Front(reports), id, ip);
      SlotOfUpdate(Reported(Front(reports)), Last(reports), id, ip);
      AfterOneMore(SamplesOf(Front(reports), id, ip), Last(reports).rtt);
    }
  }

  /** So each slot lags the mean of its own samples by the bound, and no other. */
  lemma SlotLag(reports: seq<Report>, id: Identity, ip: string)
    ensures var slot, samples := Slot(Reported(reports), id, ip), SamplesOf(reports, id, ip);
            && slot.n == |samples| && slot.n * slot.rtt <= Total(samples)
            && 2 * (Total(samples) - slot.n * slot.rtt) <= slot.n * slot.n - slot.n
  {
    SlotIsRunningMean(reports, id, ip);
    CountsSamples(SamplesOf(reports, id, ip));
    LagBound(SamplesOf(reports, id, ip));
  }

  const WORD := 0x1_0000_0000_0000_0000

  /** The intermediate product and sum fit a 64-bit word while `(n + 1) * M` does. */
  lemma NextFitsWord(samples: seq<nat>, sample: nat, M: nat)
    requires forall i :: 0 <= i < |samples| ==> samples[i] <= M
    requires sample <= M && (|samples| + 1) * M < WORD
    ensures After(samples).n * After(samples).rtt + sample < WORD
  {
    CountsSamples(samples);
    if samples != [] { WithinSamples(samples, 0, M); }
    NextBound(After(samples), sample, M);
  }

  lemma NextBound(v: Rtt, sample: nat, M: nat)
    requires sample <= M && (v.n > 0 ==> v.rtt <= M)
    ensures v.n * v.rtt + sample <= (v.n + 1) * M
  {
  }
}
