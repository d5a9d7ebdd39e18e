/** The credit-score arithmetic: four sub-scores, each nominally out of 100,
    combined with fixed weights into a raw score that is rescaled linearly
    from [0, 100] onto the iScore range [300, 850].

    All quantities are exact reals; the floating-point rounding of the
    original arithmetic is not modelled. */
module Scoring {
  import opened Records

  const PaymentWeight: real := 0.35
  const DebtWeight: real := 0.30
  const HistoryWeight: real := 0.15
  const MixWeight: real := 0.20

  /** Bounds of the iScore scale. */
  const ScaleLow: real := 300.0
  const ScaleHigh: real := 850.0

  /** `num / den * 100`, or 0 when the denominator is zero (falsy). */
  function Percent(num: int, den: int): (r: real)
    ensures den == 0 ==> r == 0.0
    ensures den != 0 ==> r * (den as real) == 100.0 * (num as real)
    ensures den != 0 && num == den ==> r == 100.0
  {
    if den != 0 then ((num as real) / (den as real)) * 100.0 else 0.0
  }

  /** With 0 <= num <= den and den > 0 the percentage lies in [0, 100]. */
  lemma PercentBounds(num: int, den: int)
    requires 0 <= num <= den && 0 < den
    ensures 0.0 <= Percent(num, den) <= 100.0
  {
  }

  /** For a fixed positive denominator the percentage grows with the numerator. */
  lemma PercentMonotone(a: int, b: int, den: int)
    requires a <= b && 0 < den
    ensures Percent(a, den) <= Percent(b, den)
  {
  }

  /** Payment score: share of payments made on time, out of 100; 0 when no
      payments are recorded. */
  function PaymentScore(p: PaymentRecord): (r: real)
    ensures p.total == 0 ==> r == 0.0
    ensures p.total != 0 && p.onTime == p.total ==> r == 100.0
    ensures p.onTime == 0 ==> r == 0.0
    ensures p.total != 0 ==> r * (p.total as real) == 100.0 * (p.onTime as real)
  {
    Percent(p.onTime, p.total)
  }

  /** A well-formed payment record: 0 <= on-time <= total. */
  predicate ValidPayment(p: PaymentRecord) {
    0 <= p.onTime <= p.total
  }

  /** The payment score of a well-formed record lies in [0, 100]. */
  lemma PaymentScoreBounds(p: PaymentRecord)
    requires ValidPayment(p)
    ensures 0.0 <= PaymentScore(p) <= 100.0
  {
    if p.total != 0 {
      PercentBounds(p.onTime, p.total);
    }
  }

  /** Debt-utilisation score as the final-score computation writes it:
      `(1 - used / limit) * 100`, or an explicit 0 when the limit is zero. */
  function DebtScore(d: DebtRecord): (r: real)
    ensures d.limit == 0.0 ==> r == 0.0
    ensures d.limit != 0.0 ==> (100.0 - r) * d.limit == 100.0 * d.used
    ensures d.limit != 0.0 && d.used == 0.0 ==> r == 100.0
    ensures d.limit != 0.0 && d.used == d.limit ==> r == 0.0
  {
    if d.limit != 0.0 then (1.0 - d.used / d.limit) * 100.0 else 0.0
  }

  /** Utilisation ratio as the debt tab writes it: `used / limit`, or 1 when
      the limit is zero. */
  function DebtUsage(d: DebtRecord): (u: real)
    ensures d.limit == 0.0 ==> u == 1.0
    ensures d.limit != 0.0 ==> u * d.limit == d.used
  {
    if d.limit != 0.0 then d.used / d.limit else 1.0
  }

  /** Debt-utilisation score as the debt tab writes it: `(1 - usage) * 100`. */
  function DebtTabScore(d: DebtRecord): (r: real)
    ensures d.limit == 0.0 ==> r == 0.0
    ensures r <= 100.0 <==> DebtUsage(d) >= 0.0
  {
    (1.0 - DebtUsage(d)) * 100.0
  }

  /** The two formulations of the debt score agree on every record,
      including a zero limit (explicit 0 versus a ratio of 1). */
  lemma DebtPathsAgree(d: DebtRecord)
    ensures DebtTabScore(d) == DebtScore(d)
  {
    if d.limit != 0.0 {
      assert DebtUsage(d) == d.used / d.limit;
    }
  }

  /** With 0 <= used <= limit and a positive limit the debt score lies in [0, 100]. */
  lemma DebtScoreBounds(d: DebtRecord)
    requires 0.0 <= d.used <= d.limit && 0.0 < d.limit
    ensures 0.0 <= DebtScore(d) <= 100.0
  {
  }

  /** Over-utilisation (used above a positive limit) gives a negative score. */
  lemma DebtOverLimitNegative(d: DebtRecord)
    requires 0.0 < d.limit < d.used
    ensures DebtScore(d) < 0.0
  {
  }

  /** Using more of the same positive limit never raises the debt score. */
  lemma DebtScoreAntitone(d1: DebtRecord, d2: DebtRecord)
    requires d1.limit == d2.limit && 0.0 < d1.limit
    requires d1.used <= d2.used
    ensures DebtScore(d2) <= DebtScore(d1)
  {
    var l := d1.limit;
    assert d1.used / l <= d2.used / l by {
      assert d2.used / l - d1.used / l == (d2.used - d1.used) / l;
    }
  }

  /** Account age in whole calendar years: month and day are ignored. */
  function AccountAge(h: HistoryRecord, currentYear: int): (age: int)
    ensures age == currentYear - h.accountStart.year
    ensures age < 0 <==> h.accountStart.year > currentYear
  {
    currentYear - h.accountStart.year
  }

  /** History score: ten points per year of account age, with no upper cap;
      negative when the start year lies in the future. */
  function HistoryScore(h: HistoryRecord, currentYear: int): (r: real)
    ensures r == 10.0 * ((currentYear - h.accountStart.year) as real)
    ensures h.accountStart.year > currentYear ==> r < 0.0
  {
    ((AccountAge(h, currentYear) as real) / 10.0) * 100.0
  }

  /** The history score depends on the start year only. */
  lemma HistoryIgnoresMonthAndDay(h1: HistoryRecord, h2: HistoryRecord, currentYear: int)
    requires h1.accountStart.year == h2.accountStart.year
    ensures HistoryScore(h1, currentYear) == HistoryScore(h2, currentYear)
  {
  }

  /** Mix score: share of tracked credit types in use, out of 100; 0 when no
      types are tracked. */
  function MixScore(m: MixRecord): (r: real)
    ensures m.totalTypes == 0 ==> r == 0.0
    ensures m.totalTypes != 0 && m.typesUsed == m.totalTypes ==> r == 100.0
    ensures m.typesUsed == 0 ==> r == 0.0
    ensures m.totalTypes != 0 ==> r * (m.totalTypes as real) == 100.0 * (m.typesUsed as real)
  {
    Percent(m.typesUsed, m.totalTypes)
  }

  /** With 0 <= used <= total the mix score lies in [0, 100]. */
  lemma MixScoreBounds(m: MixRecord)
    requires 0 <= m.typesUsed <= m.totalTypes
    ensures 0.0 <= MixScore(m) <= 100.0
  {
    if m.totalTypes != 0 {
      PercentBounds(m.typesUsed, m.totalTypes);
    }
  }

  /** Weighted sum of the four sub-scores. The weights sum to 1, so equal
      sub-scores give that same value, and sub-scores in [0, 100] give a raw
      score in [0, 100]. */
  function RawScore(payment: real, debt: real, history: real, mix: real): (raw: real)
    ensures payment == debt == history == mix ==> raw == payment
    ensures 0.0 <= payment <= 100.0 && 0.0 <= debt <= 100.0
         && 0.0 <= history <= 100.0 && 0.0 <= mix <= 100.0
         ==> 0.0 <= raw <= 100.0
  {
    PaymentWeight * payment + DebtWeight * debt + HistoryWeight * history + MixWeight * mix
  }

  /** Raising any sub-score, the others held or raised too, never lowers the raw score. */
  lemma RawScoreMonotone(p1: real, d1: real, h1: real, m1: real,
                         p2: real, d2: real, h2: real, m2: real)
    requires p1 <= p2 && d1 <= d2 && h1 <= h2 && m1 <= m2
    ensures RawScore(p1, d1, h1, m1) <= RawScore(p2, d2, h2, m2)
  {
  }

  /** Linear rescale of a raw score from [0, 100] onto [300, 850]. */
  function Scaled(raw: real): (s: real)
    ensures raw == 0.0 ==> s == ScaleLow
    ensures raw == 100.0 ==> s == ScaleHigh
    ensures 0.0 <= raw <= 100.0 ==> ScaleLow <= s <= ScaleHigh
  {
    300.0 + ((raw / 100.0) * (850.0 - 300.0))
  }

  /** The rescale is strictly increasing, hence order-preserving both ways. */
  lemma ScaledStrictlyIncreasing(r1: real, r2: real)
    ensures r1 < r2 <==> Scaled(r1) < Scaled(r2)
  {
  }

  /** What `calculate_score_components` returns. */
  datatype ScoreComponents = ScoreComponents(
    payment: real, debt: real, history: real, mix: real, scaled: real)

  /** The four sub-scores of a user's rows and the iScore built from them. */
  function ComponentsOf(p: PaymentRecord, d: DebtRecord, h: HistoryRecord, m: MixRecord,
                        currentYear: int): (c: ScoreComponents)
    ensures c.payment == PaymentScore(p) && c.debt == DebtScore(d) && c.mix == MixScore(m)
    ensures c.history == 10.0 * ((currentYear - h.accountStart.year) as real)
    ensures c.scaled == Scaled(RawScore(c.payment, c.debt, c.history, c.mix))
  {
    var payment := PaymentScore(p);
    var debt := DebtScore(d);
    var history := HistoryScore(h, currentYear);
    var mix := MixScore(m);
    ScoreComponents(payment, debt, history, mix, Scaled(RawScore(payment, debt, history, mix)))
  }

  /** `calculate_score_components(user_id)`: fetch the four rows and combine
      them. Every row is indexed unconditionally, so all four must exist. */
  function CalculateScoreComponents(store: Store, userId: int, currentYear: int): (c: ScoreComponents)
    requires HasScoringRows(store, userId)
    ensures c == ComponentsOf(store.payments[userId], store.debts[userId], store.histories[userId],
                              store.mixes[userId], currentYear)
    ensures c.scaled == Scaled(RawScore(c.payment, c.debt, c.history, c.mix))
    ensures var p := store.payments[userId];
      && (p.total == 0 ==> c.payment == 0.0)
      && (p.total != 0 ==> c.payment * (p.total as real) == 100.0 * (p.onTime as real))
    ensures var d := store.debts[userId];
      && (d.limit == 0.0 ==> c.debt == 0.0)
      && (d.limit != 0.0 ==> (100.0 - c.debt) * d.limit == 100.0 * d.used)
    ensures c.history == 10.0 * ((currentYear - store.histories[userId].accountStart.year) as real)
    ensures var m := store.mixes[userId];
      && (m.totalTypes == 0 ==> c.mix == 0.0)
      && (m.totalTypes != 0 ==> c.mix * (m.totalTypes as real) == 100.0 * (m.typesUsed as real))
  {
    ComponentsOf(store.payments[userId], store.debts[userId], store.histories[userId],
                 store.mixes[userId], currentYear)
  }

  /** Rows that satisfy the stores' intended invariants, with an account at
      most ten years old (the history score has no cap above 100). */
  predicate InNominalRange(p: PaymentRecord, d: DebtRecord, h: HistoryRecord, m: MixRecord,
                           currentYear: int) {
    && ValidPayment(p)
    && 0.0 <= d.used && (d.limit == 0.0 || d.used <= d.limit) && 0.0 <= d.limit
    && 0 <= AccountAge(h, currentYear) <= 10
    && 0 <= m.typesUsed <= m.totalTypes
  }

  /** Rows in their nominal range yield every sub-score in [0, 100] and an
      iScore in [300, 850]. */
  lemma ComponentsInRange(p: PaymentRecord, d: DebtRecord, h: HistoryRecord, m: MixRecord,
                          currentYear: int)
    requires InNominalRange(p, d, h, m, currentYear)
    ensures var c := ComponentsOf(p, d, h, m, currentYear);
      && 0.0 <= c.payment <= 100.0 && 0.0 <= c.debt <= 100.0
      && 0.0 <= c.history <= 100.0 && 0.0 <= c.mix <= 100.0
      && ScaleLow <= c.scaled <= ScaleHigh
  {
    PaymentScoreBounds(p);
    if d.limit != 0.0 {
      DebtScoreBounds(d);
    }
    MixScoreBounds(m);
  }

  /** Raising any sub-score, the others unchanged or raised too, never
      lowers the iScore. */
  lemma FinalScoreMonotone(p1: real, d1: real, h1: real, m1: real,
                           p2: real, d2: real, h2: real, m2: real)
    requires p1 <= p2 && d1 <= d2 && h1 <= h2 && m1 <= m2
    ensures Scaled(RawScore(p1, d1, h1, m1)) <= Scaled(RawScore(p2, d2, h2, m2))
  {
    RawScoreMonotone(p1, d1, h1, m1, p2, d2, h2, m2);
    ScaledStrictlyIncreasing(RawScore(p1, d1, h1, m1), RawScore(p2, d2, h2, m2));
  }

  /** More on-time payments out of the same non-negative total never lower
      the iScore. */
  lemma MorePaymentsOnTimeNeverLower(p1: PaymentRecord, p2: PaymentRecord, d: DebtRecord,
                                     h: HistoryRecord, m: MixRecord, currentYear: int)
    requires p1.total == p2.total && 0 <= p1.total && p1.onTime <= p2.onTime
    ensures ComponentsOf(p1, d, h, m, currentYear).scaled
         <= ComponentsOf(p2, d, h, m, currentYear).scaled
  {
    if p1.total != 0 {
      PercentMonotone(p1.onTime, p2.onTime, p1.total);
    }
    var c1, c2 := ComponentsOf(p1, d, h, m, currentYear), ComponentsOf(p2, d, h, m, currentYear);
    FinalScoreMonotone(c1.payment, c1.debt, c1.history, c1.mix,
                       c2.payment, c2.debt, c2.history, c2.mix);
  }

  /** Using less of the same positive credit limit never lowers the iScore. */
  lemma LessCreditUsedNeverLower(p: PaymentRecord, d1: DebtRecord, d2: DebtRecord,
                                 h: HistoryRecord, m: MixRecord, currentYear: int)
    requires d1.limit == d2.limit && 0.0 < d1.limit && d2.used <= d1.used
    ensures ComponentsOf(p, d1, h, m, currentYear).scaled
         <= ComponentsOf(p, d2, h, m, currentYear).scaled
  {
    DebtScoreAntitone(d2, d1);
    var c1, c2 := ComponentsOf(p, d1, h, m, currentYear), ComponentsOf(p, d2, h, m, currentYear);
    FinalScoreMonotone(c1.payment, c1.debt, c1.history, c1.mix,
                       c2.payment, c2.debt, c2.history, c2.mix);
  }

  /** An earlier account start year never lowers the iScore. */
  lemma OlderAccountNeverLower(p: PaymentRecord, d: DebtRecord, h1: HistoryRecord,
                               h2: HistoryRecord, m: MixRecord, currentYear: int)
    requires h2.accountStart.year <= h1.accountStart.year
    ensures ComponentsOf(p, d, h1, m, currentYear).scaled
         <= ComponentsOf(p, d, h2, m, currentYear).scaled
  {
    var c1, c2 := ComponentsOf(p, d, h1, m, currentYear), ComponentsOf(p, d, h2, m, currentYear);
    FinalScoreMonotone(c1.payment, c1.debt, c1.history, c1.mix,
                       c2.payment, c2.debt, c2.history, c2.mix);
  }

  /** More credit types used out of the same non-negative number tracked
      never lower the iScore. */
  lemma MoreCreditTypesNeverLower(p: PaymentRecord, d: DebtRecord, h: HistoryRecord,
                                  m1: MixRecord, m2: MixRecord, currentYear: int)
    requires m1.totalTypes == m2.totalTypes && 0 <= m1.totalTypes
    requires m1.typesUsed <= m2.typesUsed
    ensures ComponentsOf(p, d, h, m1, currentYear).scaled
         <= ComponentsOf(p, d, h, m2, currentYear).scaled
  {
    if m1.totalTypes != 0 {
      PercentMonotone(m1.typesUsed, m2.typesUsed, m1.totalTypes);
    }
    var c1, c2 := ComponentsOf(p, d, h, m1, currentYear), ComponentsOf(p, d, h, m2, currentYear);
    FinalScoreMonotone(c1.payment, c1.debt, c1.history, c1.mix,
                       c2.payment, c2.debt, c2.history, c2.mix);
  }

  /** The worked example: 8 of 10 payments on time, 2000 of a 10000 limit
      used, an account opened five years ago and 3 of 5 credit types give
      sub-scores (80, 80, 50, 60), a raw score of 71.5 and an iScore of 693.25. */
  lemma WorkedExample(startMonth: int, startDay: int, currentYear: int)
    ensures RawScore(80.0, 80.0, 50.0, 60.0) == 71.5
    ensures ComponentsOf(PaymentRecord(8, 10), DebtRecord(2000.0, 10000.0),
                         HistoryRecord(Date(currentYear - 5, startMonth, startDay)),
                         MixRecord(3, 5), currentYear)
         == ScoreComponents(80.0, 80.0, 50.0, 60.0, 693.25)
  {
  }
}
