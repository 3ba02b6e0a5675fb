/** The report computations over cleaned payment records: the `/summary`
    totals, the per-room and per-year buckets of `/roomwise` and `/yearwise`,
    and the paid-status histogram of `/debug/sample`. */
module Aggregation {
  import opened Seqs
  import opened RowNormalizer

  /** `row.PAID === "PAID"`: an exact comparison with the upper-cased
      status, so "PENDING", "" and "PAID " all count as unpaid. */
  predicate IsPaid(r: PaymentRecord) {
    r.paid == "PAID"
  }

  predicate IsUnpaid(r: PaymentRecord) {
    !IsPaid(r)
  }

  /** `reduce((sum, d) => sum + d.AMOUNT, 0)`. */
  function Sum(rs: seq<PaymentRecord>): real {
    if rs == [] then 0.0 else Sum(rs[..|rs| - 1]) + rs[|rs| - 1].amount
  }

  lemma SumSnoc(rs: seq<PaymentRecord>, r: PaymentRecord)
    ensures Sum(rs + [r]) == Sum(rs) + r.amount
  {
    assert (rs + [r])[..|rs|] == rs;
  }

  /** `Math.max(x, 0)` on the reals. */
  function Max(a: real, b: real): (m: real)
    ensures m >= a && m >= b && (m == a || m == b)
  {
    if a >= b then a else b
  }

  /** Every record is either paid or unpaid: the counts and the amounts of
      the two parts add up to those of the whole. */
  lemma {:induction false} PaidPartition(rs: seq<PaymentRecord>)
    ensures |Filter(IsPaid, rs)| + |Filter(IsUnpaid, rs)| == |rs|
    ensures Sum(Filter(IsPaid, rs)) + Sum(Filter(IsUnpaid, rs)) == Sum(rs)
  {
    if rs != [] {
      var init, last := rs[..|rs| - 1], rs[|rs| - 1];
      assert rs == init + [last];
      PaidPartition(init);
      FilterSnoc(IsPaid, init, last);
      FilterSnoc(IsUnpaid, init, last);
      SumSnoc(init, last);
      if IsPaid(last) {
        SumSnoc(Filter(IsPaid, init), last);
      } else {
        SumSnoc(Filter(IsUnpaid, init), last);
      }
    }
  }

  // ---------------------------------------------------------------------
  // /summary

  /** The JSON body of `/summary`. */
  datatype SummaryView = SummaryView(
    sheet: string,
    totalStudents: nat,
    paidCount: nat,
    unpaidCount: nat,
    totalPaidAmount: real,
    pendingAmount: real,
    expectedTotal: real)

  /** The `/summary` totals: the paid records are counted and summed, the
      unpaid count is the rest, and the pending amount is what the unpaid
      records owe, clamped at zero. */
  function Summarize(sheet: string, data: seq<PaymentRecord>): (v: SummaryView)
    ensures v.sheet == sheet
    ensures v.paidCount + v.unpaidCount == v.totalStudents == |data|
    ensures v.paidCount == |Filter(IsPaid, data)|
    ensures v.totalPaidAmount == Sum(Filter(IsPaid, data))
    ensures v.expectedTotal == Sum(data)
    ensures v.unpaidCount == |Filter(IsUnpaid, data)|
    ensures v.expectedTotal == v.totalPaidAmount + Sum(Filter(IsUnpaid, data))
    ensures v.pendingAmount == Max(Sum(Filter(IsUnpaid, data)), 0.0) >= 0.0
  {
    PaidPartition(data);
    var paid := Filter(IsPaid, data);
    var totalPaidAmount := Sum(paid);
    var expectedTotal := Sum(data);
    SummaryView(sheet, |data|, |paid|, |data| - |paid|, totalPaidAmount,
                Max(expectedTotal - totalPaidAmount, 0.0), expectedTotal)
  }

  // ---------------------------------------------------------------------
  // Grouping by a record field

  /** The record field a report groups by. */
  datatype Field = Room | Year | PaidStatus

  function KeyOf(r: PaymentRecord, f: Field): string {
    match f
    case Room => r.room
    case Year => r.year
    case PaidStatus => r.paid
  }

  /** The room and year reports skip a record whose key is empty
      (`if (!room) continue;`); the histogram counts every status, "" too. */
  predicate CountedKey(f: Field, k: string) {
    f == PaidStatus || k != ""
  }

  predicate Counted(r: PaymentRecord, f: Field) {
    CountedKey(f, KeyOf(r, f))
  }

  /** The test a record passes when the report counts it. */
  function CountedBy(f: Field): PaymentRecord -> bool {
    r => Counted(r, f)
  }

  /** The test a record passes when its field `f` is `k`. */
  function KeyIs(f: Field, k: string): PaymentRecord -> bool {
    r => KeyOf(r, f) == k
  }

  /** The records a report looks at. */
  function Eligible(rs: seq<PaymentRecord>, f: Field): seq<PaymentRecord> {
    Filter(CountedBy(f), rs)
  }

  /** The records whose field `f` is `k`, in data order. */
  function Group(rs: seq<PaymentRecord>, f: Field, k: string): seq<PaymentRecord> {
    Filter(KeyIs(f, k), rs)
  }

  /** The keys of a report in the order they are first met: the order in
      which the source inserts them into its result object. */
  function KeyOrder(rs: seq<PaymentRecord>, f: Field): seq<string> {
    if rs == [] then [] else
      var ks := KeyOrder(rs[..|rs| - 1], f);
      var last := rs[|rs| - 1];
      if Counted(last, f) && KeyOf(last, f) !in ks then ks + [KeyOf(last, f)] else ks
  }

  /** One more record joins the group of its own key and no other. */
  lemma GroupSnoc(rs: seq<PaymentRecord>, r: PaymentRecord, f: Field)
    ensures Group(rs + [r], f, KeyOf(r, f)) == Group(rs, f, KeyOf(r, f)) + [r]
    ensures forall k :: k != KeyOf(r, f) ==> Group(rs + [r], f, k) == Group(rs, f, k)
  {
    FilterSnoc(KeyIs(f, KeyOf(r, f)), rs, r);
    forall k | k != KeyOf(r, f)
      ensures Group(rs + [r], f, k) == Group(rs, f, k)
    {
      FilterSnoc(KeyIs(f, k), rs, r);
    }
  }

  /** One more record adds its key at the end of the key order when it is
      counted and new, and leaves the order alone otherwise. */
  lemma KeyOrderSnoc(rs: seq<PaymentRecord>, r: PaymentRecord, f: Field)
    ensures Counted(r, f) && KeyOf(r, f) !in KeyOrder(rs, f) ==> KeyOrder(rs + [r], f) == KeyOrder(rs, f) + [KeyOf(r, f)]
    ensures !(Counted(r, f) && KeyOf(r, f) !in KeyOrder(rs, f)) ==> KeyOrder(rs + [r], f) == KeyOrder(rs, f)
  {
    assert (rs + [r])[..|rs|] == rs;
  }

  lemma EligibleSnoc(rs: seq<PaymentRecord>, r: PaymentRecord, f: Field)
    ensures Counted(r, f) ==> Eligible(rs + [r], f) == Eligible(rs, f) + [r]
    ensures !Counted(r, f) ==> Eligible(rs + [r], f) == Eligible(rs, f)
  {
    FilterSnoc(CountedBy(f), rs, r);
  }

  lemma RunningSnoc(g: seq<PaymentRecord>, r: PaymentRecord)
    ensures Running(g + [r]) == Add(Running(g), r)
  {
    assert (g + [r])[..|g|] == g;
  }

  /** A group holds exactly the records with that key. */
  lemma {:induction false} GroupMembers(rs: seq<PaymentRecord>, f: Field, k: string)
    ensures var g := Group(rs, f, k);
      && (forall i :: 0 <= i < |g| ==> KeyOf(g[i], f) == k && g[i] in rs)
      && (forall i :: 0 <= i < |rs| && KeyOf(rs[i], f) == k ==> rs[i] in g)
  {
    if rs != [] {
      var init := rs[..|rs| - 1];
      GroupMembers(init, f, k);
      var g := Group(rs, f, k);
      assert forall i :: 0 <= i < |rs| - 1 ==> rs[i] == init[i];
      assert forall r :: r in init ==> r in rs;
      assert forall r :: r in Group(init, f, k) ==> r in g;
    }
  }

  /** The keys are distinct and each is a key the report counts. */
  lemma {:induction false} KeyOrderDistinct(rs: seq<PaymentRecord>, f: Field)
    ensures var ks := KeyOrder(rs, f);
      && (forall i, j :: 0 <= i < j < |ks| ==> ks[i] != ks[j])
      && (forall k :: k in ks ==> CountedKey(f, k))
  {
    if rs != [] {
      var init, last := rs[..|rs| - 1], rs[|rs| - 1];
      assert rs == init + [last];
      KeyOrderDistinct(init, f);
      KeyOrderSnoc(init, last, f);
    }
  }

  /** The keys are exactly the keys of the counted records. */
  lemma {:induction false} KeyOrderMembers(rs: seq<PaymentRecord>, f: Field)
    ensures forall k :: k in KeyOrder(rs, f) <==> exists i :: 0 <= i < |rs| && Counted(rs[i], f) && KeyOf(rs[i], f) == k
  {
    if rs != [] {
      var init, last := rs[..|rs| - 1], rs[|rs| - 1];
      assert rs == init + [last];
      KeyOrderMembers(init, f);
      KeyOrderSnoc(init, last, f);
      var prev, ks := KeyOrder(init, f), KeyOrder(rs, f);
      assert forall i :: 0 <= i < |init| ==> rs[i] == init[i];
      forall k | k in ks
        ensures exists i :: 0 <= i < |rs| && Counted(rs[i], f) && KeyOf(rs[i], f) == k
      {
        if k in prev {
          var i :| 0 <= i < |init| && Counted(init[i], f) && KeyOf(init[i], f) == k;
          assert rs[i] == init[i];
        } else {
          assert Counted(rs[|rs| - 1], f) && KeyOf(rs[|rs| - 1], f) == k;
        }
      }
      forall k | exists i :: 0 <= i < |rs| && Counted(rs[i], f) && KeyOf(rs[i], f) == k
        ensures k in ks
      {
        var i :| 0 <= i < |rs| && Counted(rs[i], f) && KeyOf(rs[i], f) == k;
        if i < |init| {
          assert init[i] == rs[i];
          assert k in prev;
        }
      }
    }
  }

  /** Every key met has a non-empty group. */
  lemma {:induction false} GroupOfKey(rs: seq<PaymentRecord>, f: Field, k: string)
    requires k in KeyOrder(rs, f)
    ensures |Group(rs, f, k)| >= 1
  {
    var init, last := rs[..|rs| - 1], rs[|rs| - 1];
    assert rs == init + [last];
    KeyOrderSnoc(init, last, f);
    GroupSnoc(init, last, f);
    if k in KeyOrder(init, f) {
      GroupOfKey(init, f, k);
    }
  }

  /** A counted key that never occurred has an empty group. */
  lemma {:induction false} GroupOfAbsentKey(rs: seq<PaymentRecord>, f: Field, k: string)
    requires CountedKey(f, k) && k !in KeyOrder(rs, f)
    ensures Group(rs, f, k) == []
  {
    if rs != [] {
      var init, last := rs[..|rs| - 1], rs[|rs| - 1];
      assert rs == init + [last];
      KeyOrderSnoc(init, last, f);
      GroupSnoc(init, last, f);
      GroupOfAbsentKey(init, f, k);
    }
  }

  // ---------------------------------------------------------------------
  // Buckets

  /** One value of `room_wise` or `year_wise`: `paid_count`,
      `unpaid_count`, `paid_amount` (called `collected_amount` in the year
      report), `pending_amount` and `expected_amount`. */
  datatype Bucket = Bucket(
    paidCount: nat,
    unpaidCount: nat,
    paidAmount: real,
    pendingAmount: real,
    expectedAmount: real)

  /** A bucket as the source creates it on first sight of a key. */
  const Empty := Bucket(0, 0, 0.0, 0.0, 0.0)

  /** One pass of the accumulation loop: the amount always goes to the
      expected total, then to the paid side or the unpaid count. */
  function Add(b: Bucket, r: PaymentRecord): Bucket {
    var b1 := b.(expectedAmount := b.expectedAmount + r.amount);
    if IsPaid(r) then b1.(paidCount := b1.paidCount + 1, paidAmount := b1.paidAmount + r.amount)
    else b1.(unpaidCount := b1.unpaidCount + 1)
  }

  /** The bucket of a group after the first loop (pending still 0). */
  function Running(g: seq<PaymentRecord>): Bucket {
    if g == [] then Empty else Add(Running(g[..|g| - 1]), g[|g| - 1])
  }

  /** The second loop: `pending_amount = max(expected - paid, 0)`. */
  function Finish(b: Bucket): (r: Bucket)
    ensures r.pendingAmount >= 0.0 && r.pendingAmount >= b.expectedAmount - b.paidAmount
    ensures r.pendingAmount == 0.0 || r.pendingAmount == b.expectedAmount - b.paidAmount
    ensures r.(pendingAmount := b.pendingAmount) == b
  {
    b.(pendingAmount := Max(b.expectedAmount - b.paidAmount, 0.0))
  }

  function BucketOf(g: seq<PaymentRecord>): Bucket {
    Finish(Running(g))
  }

  /** What the accumulation computes: the paid and unpaid counts, the sum of
      the paid amounts and the sum of all amounts of the group. */
  lemma {:induction false} RunningMeaning(g: seq<PaymentRecord>)
    ensures Running(g) == Bucket(|Filter(IsPaid, g)|, |Filter(IsUnpaid, g)|, Sum(Filter(IsPaid, g)), 0.0, Sum(g))
  {
    if g != [] {
      var init, last := g[..|g| - 1], g[|g| - 1];
      assert g == init + [last];
      RunningMeaning(init);
      FilterSnoc(IsPaid, init, last);
      FilterSnoc(IsUnpaid, init, last);
      SumSnoc(init, last);
      if IsPaid(last) {
        SumSnoc(Filter(IsPaid, init), last);
      }
    }
  }

  /** A finished bucket in the terms of the source's promise: the counts
      partition the group, the expected amount is the group total, and the
      pending amount is what its unpaid records owe, never negative. */
  lemma BucketMeaning(g: seq<PaymentRecord>)
    ensures var b := BucketOf(g);
      && b.paidCount == |Filter(IsPaid, g)|
      && b.paidCount + b.unpaidCount == |g|
      && b.paidAmount == Sum(Filter(IsPaid, g))
      && b.expectedAmount == Sum(g)
      && b.pendingAmount == Max(Sum(Filter(IsUnpaid, g)), 0.0) >= 0.0
  {
    RunningMeaning(g);
    PaidPartition(g);
  }

  /** The specification of the room and year reports: one finished bucket
      per key met, holding that key's group. */
  function GroupBuckets(rs: seq<PaymentRecord>, f: Field): (m: map<string, Bucket>)
    ensures forall k :: k in m <==> k in KeyOrder(rs, f)
  {
    map k | k in KeyOrder(rs, f) :: BucketOf(Group(rs, f, k))
  }

  /** Every bucket of a report describes a non-empty group: its counts add
      up to the group's size, and its pending amount is clamped. */
  lemma BucketsDescribeGroups(rs: seq<PaymentRecord>, f: Field, k: string)
    requires k in GroupBuckets(rs, f)
    ensures var b := GroupBuckets(rs, f)[k];
      var g := Group(rs, f, k);
      && b.paidCount + b.unpaidCount == |g| >= 1
      && b.expectedAmount == Sum(g)
      && b.paidAmount == Sum(Filter(IsPaid, g))
      && b.pendingAmount == Max(b.expectedAmount - b.paidAmount, 0.0) >= 0.0
  {
    BucketMeaning(Group(rs, f, k));
    GroupOfKey(rs, f, k);
  }

  /** The state of the first loop after the records `rs`: one running
      bucket per key met so far, holding that key's group. */
  ghost predicate RunningBuckets(m: map<string, Bucket>, rs: seq<PaymentRecord>, f: Field) {
    && (forall k :: k in m <==> k in KeyOrder(rs, f))
    && (forall k :: k in m ==> m[k] == Running(Group(rs, f, k)))
  }

  /** One turn of the first loop on a record with an empty key changes
      nothing. */
  lemma SkipStep(m: map<string, Bucket>, rs: seq<PaymentRecord>, r: PaymentRecord, f: Field)
    requires f == Room || f == Year
    requires RunningBuckets(m, rs, f) && KeyOf(r, f) == ""
    ensures RunningBuckets(m, rs + [r], f)
  {
    GroupSnoc(rs, r, f);
    KeyOrderSnoc(rs, r, f);
    KeyOrderDistinct(rs, f);
  }

  /** The bucket of a record's key, created empty when the key is new,
      plus the record is the running bucket of the key's grown group. */
  lemma AddedBucket(m: map<string, Bucket>, rs: seq<PaymentRecord>, r: PaymentRecord, f: Field)
    requires RunningBuckets(m, rs, f) && Counted(r, f)
    ensures var key := KeyOf(r, f);
      Add(if key in m then m[key] else Empty, r) == Running(Group(rs + [r], f, key))
  {
    var key := KeyOf(r, f);
    GroupSnoc(rs, r, f);
    if key !in m {
      GroupOfAbsentKey(rs, f, key);
    }
    RunningSnoc(Group(rs, f, key), r);
  }

  /** One turn of the first loop on a record with a key adds it to the
      bucket of that key, created empty on the key's first record. */
  lemma AddStep(m: map<string, Bucket>, rs: seq<PaymentRecord>, r: PaymentRecord, f: Field)
    requires f == Room || f == Year
    requires RunningBuckets(m, rs, f) && KeyOf(r, f) != ""
    ensures var key := KeyOf(r, f);
      RunningBuckets(m[key := Add(if key in m then m[key] else Empty, r)], rs + [r], f)
  {
    var key := KeyOf(r, f);
    var m' := m[key := Add(if key in m then m[key] else Empty, r)];
    AddedBucket(m, rs, r, f);
    GroupSnoc(rs, r, f);
    KeyOrderSnoc(rs, r, f);
    forall k
      ensures k in m' <==> k in KeyOrder(rs + [r], f)
    {
    }
    forall k | k in m'
      ensures m'[k] == Running(Group(rs + [r], f, k))
    {
      if k != key {
        assert m'[k] == m[k];
      }
    }
  }

  /** The first loop of `/roomwise` and `/yearwise`: a running bucket per
      key, created empty on the key's first record; records with an empty
      key are skipped. */
  method Accumulate(data: seq<PaymentRecord>, f: Field) returns (summary: map<string, Bucket>)
    requires f == Room || f == Year
    ensures RunningBuckets(summary, data, f)
  {
    summary := map[];
    for i := 0 to |data|
      invariant RunningBuckets(summary, data[..i], f)
    {
      assert data[..i + 1] == data[..i] + [data[i]];
      var row := data[i];
      var key := KeyOf(row, f);
      if key == "" {
        SkipStep(summary, data[..i], row, f);
      } else {
        AddStep(summary, data[..i], row, f);
        if key !in summary {
          summary := summary[key := Empty];
        }
        summary := summary[key := Add(summary[key], row)];
      }
    }
    assert data[..|data|] == data;
  }

  /** The second loop: every bucket gets its pending amount. */
  method SetPending(summary: map<string, Bucket>) returns (result: map<string, Bucket>)
    ensures result == map k | k in summary :: Finish(summary[k])
  {
    result := summary;
    var pending := summary.Keys;
    while pending != {}
      invariant pending <= summary.Keys == result.Keys
      invariant forall k :: k in pending ==> result[k] == summary[k]
      invariant forall k :: k in summary && k !in pending ==> result[k] == Finish(summary[k])
      decreases pending
    {
      var k :| k in pending;
      var val := result[k];
      result := result[k := val.(pendingAmount := Max(val.expectedAmount - val.paidAmount, 0.0))];
      pending := pending - {k};
    }
  }

  /** `/roomwise` and `/yearwise`: both loops. */
  method GroupWise(data: seq<PaymentRecord>, f: Field) returns (summary: map<string, Bucket>)
    requires f == Room || f == Year
    ensures summary == GroupBuckets(data, f)
  {
    var running := Accumulate(data, f);
    summary := SetPending(running);
  }

  /** `/roomwise`: buckets keyed by room. */
  method RoomWise(data: seq<PaymentRecord>) returns (roomSummary: map<string, Bucket>)
    ensures roomSummary == GroupBuckets(data, Room)
  {
    roomSummary := GroupWise(data, Room);
  }

  /** `/yearwise`: buckets keyed by year, skipping records without one. */
  method YearWise(data: seq<PaymentRecord>) returns (yearSummary: map<string, Bucket>)
    ensures yearSummary == GroupBuckets(data, Year)
  {
    yearSummary := GroupWise(data, Year);
  }

  // ---------------------------------------------------------------------
  // Reconciliation of the buckets with the totals

  function Plus(a: Bucket, b: Bucket): Bucket {
    Bucket(a.paidCount + b.paidCount, a.unpaidCount + b.unpaidCount, a.paidAmount + b.paidAmount,
           a.pendingAmount + b.pendingAmount, a.expectedAmount + b.expectedAmount)
  }

  lemma PlusAdd(a: Bucket, b: Bucket, r: PaymentRecord)
    ensures Plus(a, Add(b, r)) == Add(Plus(a, b), r)
    ensures Plus(Add(a, r), b) == Add(Plus(a, b), r)
    ensures Plus(a, Add(Empty, r)) == Add(a, r)
  {
  }

  /** The column totals of the buckets of `m` at the keys `ks`. */
  function ColumnTotals(m: map<string, Bucket>, ks: seq<string>): Bucket
    requires forall k :: k in ks ==> k in m
  {
    if ks == [] then Empty else Plus(ColumnTotals(m, ks[..|ks| - 1]), m[ks[|ks| - 1]])
  }

  /** The running buckets of the groups `ks`, added up. */
  function RunningTotals(rs: seq<PaymentRecord>, f: Field, ks: seq<string>): Bucket {
    if ks == [] then Empty else Plus(RunningTotals(rs, f, ks[..|ks| - 1]), Running(Group(rs, f, ks[|ks| - 1])))
  }

  /** A record whose key is not among `ks` changes none of their groups. */
  lemma {:induction false} TotalsSkip(rs: seq<PaymentRecord>, r: PaymentRecord, f: Field, ks: seq<string>)
    requires KeyOf(r, f) !in ks
    ensures RunningTotals(rs + [r], f, ks) == RunningTotals(rs, f, ks)
  {
    if ks != [] {
      TotalsSkip(rs, r, f, ks[..|ks| - 1]);
      GroupSnoc(rs, r, f);
    }
  }

  /** A record whose key occurs once among `ks` is added to their total once. */
  lemma {:induction false} TotalsHit(rs: seq<PaymentRecord>, r: PaymentRecord, f: Field, ks: seq<string>)
    requires KeyOf(r, f) in ks
    requires forall i, j :: 0 <= i < j < |ks| ==> ks[i] != ks[j]
    ensures RunningTotals(rs + [r], f, ks) == Add(RunningTotals(rs, f, ks), r)
  {
    var init, last := ks[..|ks| - 1], ks[|ks| - 1];
    assert ks == init + [last];
    GroupSnoc(rs, r, f);
    if last == KeyOf(r, f) {
      assert KeyOf(r, f) !in init;
      TotalsSkip(rs, r, f, init);
      RunningSnoc(Group(rs, f, last), r);
      PlusAdd(RunningTotals(rs, f, init), Running(Group(rs, f, last)), r);
    } else {
      TotalsHit(rs, r, f, init);
      PlusAdd(RunningTotals(rs, f, init), Running(Group(rs, f, last)), r);
    }
  }

  /** A record with a new key starts its own group, last in the key order. */
  lemma NewKeyCover(rs: seq<PaymentRecord>, r: PaymentRecord, f: Field)
    requires Counted(r, f) && KeyOf(r, f) !in KeyOrder(rs, f)
    requires RunningTotals(rs, f, KeyOrder(rs, f)) == Running(Eligible(rs, f))
    ensures RunningTotals(rs + [r], f, KeyOrder(rs + [r], f)) == Running(Eligible(rs + [r], f))
  {
    var ks, key := KeyOrder(rs, f), KeyOf(r, f);
    KeyOrderSnoc(rs, r, f);
    EligibleSnoc(rs, r, f);
    GroupSnoc(rs, r, f);
    TotalsSkip(rs, r, f, ks);
    GroupOfAbsentKey(rs, f, key);
    assert Group(rs + [r], f, key) == [] + [r];
    RunningSnoc([], r);
    RunningSnoc(Eligible(rs, f), r);
    var ks' := ks + [key];
    assert ks'[..|ks|] == ks;
    assert RunningTotals(rs + [r], f, ks') == Plus(RunningTotals(rs + [r], f, ks), Running(Group(rs + [r], f, key)));
    PlusAdd(RunningTotals(rs, f, ks), Empty, r);
  }

  /** A record with a key already met joins that key's group, or, without
      a counted key, no group at all. */
  lemma OldKeyCover(rs: seq<PaymentRecord>, r: PaymentRecord, f: Field)
    requires !(Counted(r, f) && KeyOf(r, f) !in KeyOrder(rs, f))
    requires RunningTotals(rs, f, KeyOrder(rs, f)) == Running(Eligible(rs, f))
    ensures RunningTotals(rs + [r], f, KeyOrder(rs + [r], f)) == Running(Eligible(rs + [r], f))
  {
    var ks := KeyOrder(rs, f);
    KeyOrderSnoc(rs, r, f);
    EligibleSnoc(rs, r, f);
    KeyOrderDistinct(rs, f);
    if Counted(r, f) {
      TotalsHit(rs, r, f, ks);
      RunningSnoc(Eligible(rs, f), r);
    } else {
      TotalsSkip(rs, r, f, ks);
    }
  }

  /** The groups of a report together hold its eligible records, each once:
      their running buckets add up to the bucket of all eligible records. */
  lemma {:induction false} GroupsCoverEligible(rs: seq<PaymentRecord>, f: Field)
    ensures RunningTotals(rs, f, KeyOrder(rs, f)) == Running(Eligible(rs, f))
  {
    if rs != [] {
      var init, r := rs[..|rs| - 1], rs[|rs| - 1];
      assert rs == init + [r];
      GroupsCoverEligible(init, f);
      if Counted(r, f) && KeyOf(r, f) !in KeyOrder(init, f) {
        NewKeyCover(init, r, f);
      } else {
        OldKeyCover(init, r, f);
      }
    }
  }

  /** The finished buckets agree with the running ones on every column but
      the pending one, whose total covers the unpaid balance and is never
      negative. */
  lemma {:induction false} ColumnTotalsOfBuckets(rs: seq<PaymentRecord>, f: Field, ks: seq<string>)
    requires forall k :: k in ks ==> k in KeyOrder(rs, f)
    ensures var c := ColumnTotals(GroupBuckets(rs, f), ks);
      var t := RunningTotals(rs, f, ks);
      && c.paidCount == t.paidCount && c.unpaidCount == t.unpaidCount
      && c.paidAmount == t.paidAmount && c.expectedAmount == t.expectedAmount
      && c.pendingAmount >= c.expectedAmount - c.paidAmount && c.pendingAmount >= 0.0
  {
    if ks != [] {
      ColumnTotalsOfBuckets(rs, f, ks[..|ks| - 1]);
    }
  }

  /** Across all buckets of a report, the counts and amounts add up to those
      of the records the report looks at, and the pending amounts add up to
      at least the clamped unpaid balance of those records. */
  lemma BucketsReconcile(rs: seq<PaymentRecord>, f: Field)
    ensures var c := ColumnTotals(GroupBuckets(rs, f), KeyOrder(rs, f));
      var e := Eligible(rs, f);
      && c.paidCount == |Filter(IsPaid, e)|
      && c.paidCount + c.unpaidCount == |e|
      && c.paidAmount == Sum(Filter(IsPaid, e))
      && c.expectedAmount == Sum(e)
      && c.pendingAmount >= Max(Sum(Filter(IsUnpaid, e)), 0.0)
  {
    ColumnTotalsOfBuckets(rs, f, KeyOrder(rs, f));
    GroupsCoverEligible(rs, f);
    RunningMeaning(Eligible(rs, f));
    PaidPartition(Eligible(rs, f));
  }

  /** A report keyed by a field every record has looks at every record. */
  lemma {:induction false} EligibleAll(rs: seq<PaymentRecord>, f: Field)
    requires forall i :: 0 <= i < |rs| ==> Counted(rs[i], f)
    ensures Eligible(rs, f) == rs
  {
    FilterKeepsAll(CountedBy(f), rs);
  }

  /** The eligible records have no more paid records, and no more unpaid
      ones, than the whole data. */
  lemma {:induction false} EligibleCounts(rs: seq<PaymentRecord>, f: Field)
    ensures |Filter(IsPaid, Eligible(rs, f))| <= |Filter(IsPaid, rs)|
    ensures |Filter(IsUnpaid, Eligible(rs, f))| <= |Filter(IsUnpaid, rs)|
  {
    if rs != [] {
      var init, last := rs[..|rs| - 1], rs[|rs| - 1];
      assert rs == init + [last];
      EligibleCounts(init, f);
      EligibleSnoc(init, last, f);
      FilterSnoc(IsPaid, init, last);
      FilterSnoc(IsUnpaid, init, last);
      if Counted(last, f) {
        FilterSnoc(IsPaid, Eligible(init, f), last);
        FilterSnoc(IsUnpaid, Eligible(init, f), last);
      }
    }
  }

  /** Cleaned data has a room on every record, so the room buckets add up
      to the `/summary` figures: the same paid and unpaid counts, paid total
      and expected total, and pending amounts that cover the summary's. */
  lemma RoomWiseMatchesSummary(sheet: string, data: seq<PaymentRecord>)
    requires forall i :: 0 <= i < |data| ==> HasRoom(data[i])
    ensures var c := ColumnTotals(GroupBuckets(data, Room), KeyOrder(data, Room));
      var s := Summarize(sheet, data);
      && c.paidCount == s.paidCount && c.unpaidCount == s.unpaidCount
      && c.paidAmount == s.totalPaidAmount && c.expectedAmount == s.expectedTotal
      && c.pendingAmount >= s.pendingAmount
  {
    EligibleAll(data, Room);
    BucketsReconcile(data, Room);
  }

  /** The year buckets count exactly the records with a year, no more paid
      and no more unpaid ones than the summary counts. */
  lemma YearWiseWithinSummary(sheet: string, data: seq<PaymentRecord>)
    ensures var c := ColumnTotals(GroupBuckets(data, Year), KeyOrder(data, Year));
      var s := Summarize(sheet, data);
      && c.paidCount + c.unpaidCount == |Eligible(data, Year)| <= s.totalStudents
      && c.paidCount <= s.paidCount && c.unpaidCount <= s.unpaidCount
      && c.expectedAmount == Sum(Eligible(data, Year))
  {
    BucketsReconcile(data, Year);
    EligibleCounts(data, Year);
    PaidPartition(Eligible(data, Year));
  }

  // ---------------------------------------------------------------------
  // /debug/sample: the paid-status histogram

  /** The specification of `paid_distribution`: each status met, with the
      number of records carrying it. */
  function Distribution(data: seq<PaymentRecord>): (m: map<string, nat>)
    ensures forall k :: k in m <==> k in KeyOrder(data, PaidStatus)
  {
    map k | k in KeyOrder(data, PaidStatus) :: |Group(data, PaidStatus, k)|
  }

  /** `paidDist[s] = (paidDist[s] || 0) + 1` for every record. */
  method PaidDistribution(data: seq<PaymentRecord>) returns (paidDist: map<string, nat>)
    ensures paidDist == Distribution(data)
  {
    paidDist := map[];
    for i := 0 to |data|
      invariant forall k :: k in paidDist <==> k in KeyOrder(data[..i], PaidStatus)
      invariant forall k :: k in paidDist ==> paidDist[k] == |Group(data[..i], PaidStatus, k)|
    {
      assert data[..i + 1][..i] == data[..i];
      var paidStatus := data[i].paid;
      if paidStatus !in paidDist {
        GroupOfAbsentKey(data[..i], PaidStatus, paidStatus);
      }
      paidDist := paidDist[paidStatus := (if paidStatus in paidDist then paidDist[paidStatus] else 0) + 1];
    }
    assert data[..|data|] == data;
  }

  /** The histogram counts added up over the keys `ks`. */
  function CountTotal(m: map<string, nat>, ks: seq<string>): nat
    requires forall k :: k in ks ==> k in m
  {
    if ks == [] then 0 else CountTotal(m, ks[..|ks| - 1]) + m[ks[|ks| - 1]]
  }

  /** A group's size is its paid count plus its unpaid count. */
  lemma {:induction false} RunningSize(g: seq<PaymentRecord>)
    ensures Running(g).paidCount + Running(g).unpaidCount == |g|
  {
    if g != [] {
      RunningSize(g[..|g| - 1]);
    }
  }

  lemma {:induction false} CountTotalOfGroups(data: seq<PaymentRecord>, ks: seq<string>)
    requires forall k :: k in ks ==> k in KeyOrder(data, PaidStatus)
    ensures CountTotal(Distribution(data), ks)
      == RunningTotals(data, PaidStatus, ks).paidCount + RunningTotals(data, PaidStatus, ks).unpaidCount
  {
    if ks != [] {
      CountTotalOfGroups(data, ks[..|ks| - 1]);
      RunningSize(Group(data, PaidStatus, ks[|ks| - 1]));
    }
  }

  /** Every record is counted under exactly one status: the histogram's
      counts add up to the number of records. */
  lemma DistributionTotal(data: seq<PaymentRecord>)
    ensures CountTotal(Distribution(data), KeyOrder(data, PaidStatus)) == |data|
  {
    CountTotalOfGroups(data, KeyOrder(data, PaidStatus));
    GroupsCoverEligible(data, PaidStatus);
    EligibleAll(data, PaidStatus);
    RunningSize(data);
  }
}
