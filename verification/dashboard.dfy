/** The dashboard statistics: per collection, the total, the count of expired records, the
    count of records due within 15 days, and the list of records due within 30 days, projected
    to a key and an expiry date and sorted by expiry date. Computed from the two collections
    and the current date; nothing is written. */
module Dashboard {
  import opened Expiry
  import Licencias
  import Matafuegos

  /** A record reduced to the two fields the 30-day list shows: the key (`legajo` for a
      licence, `numeroCoche` for an extinguisher) and the expiry date. */
  datatype Due = Due(key: string, fechaVencimiento: Date)

  /** The statistics of one collection. For extinguishers the answer names the counts and the
      list `vencidos`, `proximos` and `proximos30Dias`. */
  datatype Summary = Summary(total: nat, vencidas: nat, proximas: nat, proximas30Dias: seq<Due>)

  datatype Statistics = Statistics(licencias: Summary, matafuegos: Summary)

  /** The 30-day look-ahead window, independent of the status bands. */
  predicate InWindow(fecha: Date, today: Date): (b: bool)
    ensures b <==> today <= fecha <= today + 30
    ensures b ==> StatusOf(fecha, today) != Vencido
  {
    0 <= DaysRemaining(fecha, today) <= 30
  }

  /** The number of records of `ds` whose status on `today` is one of `bands`. */
  function Count(ds: seq<Due>, today: Date, bands: set<Status>): (n: nat)
    ensures n <= |ds|
  {
    if ds == [] then 0
    else (if StatusOf(ds[0].fechaVencimiento, today) in bands then 1 else 0) + Count(ds[1..], today, bands)
  }

  /** The positions of the records of `ds` whose status on `today` is one of `bands`. */
  ghost function Matching(ds: seq<Due>, today: Date, bands: set<Status>): set<int> {
    set i | 0 <= i < |ds| && StatusOf(ds[i].fechaVencimiento, today) in bands
  }

  /** The positions from `k` on of the records whose status on `today` is one of `bands`. */
  ghost function MatchingFrom(ds: seq<Due>, today: Date, bands: set<Status>, k: nat): set<int> {
    set i | k <= i < |ds| && StatusOf(ds[i].fechaVencimiento, today) in bands
  }

  lemma {:induction false} CountSuffix(ds: seq<Due>, today: Date, bands: set<Status>, k: nat)
    requires k <= |ds|
    ensures Count(ds[k..], today, bands) == |MatchingFrom(ds, today, bands, k)|
    decreases |ds| - k
  {
    if k < |ds| {
      CountSuffix(ds, today, bands, k + 1);
      assert ds[k..][0] == ds[k] && ds[k..][1..] == ds[k + 1..];
      var head: set<int> := if StatusOf(ds[k].fechaVencimiento, today) in bands then {k} else {};
      assert MatchingFrom(ds, today, bands, k) == head + MatchingFrom(ds, today, bands, k + 1);
      assert head !! MatchingFrom(ds, today, bands, k + 1);
    } else {
      assert MatchingFrom(ds, today, bands, k) == {};
    }
  }

  /** `Count` is the number of records whose status is in `bands`: the size of the filter
      `filter(status in bands)`. */
  lemma CountIsMatchingRecords(ds: seq<Due>, today: Date, bands: set<Status>)
    ensures Count(ds, today, bands) == |Matching(ds, today, bands)|
  {
    CountSuffix(ds, today, bands, 0);
    assert ds[0..] == ds;
    assert MatchingFrom(ds, today, bands, 0) == Matching(ds, today, bands);
  }

  /** Counting two disjoint sets of bands adds up to counting their union. */
  lemma {:induction false} CountDisjoint(ds: seq<Due>, today: Date, a: set<Status>, b: set<Status>)
    requires a !! b
    ensures Count(ds, today, a) + Count(ds, today, b) == Count(ds, today, a + b)
  {
    if ds != [] {
      CountDisjoint(ds[1..], today, a, b);
    }
  }

  /** Every record falls in one of the four bands. */
  lemma {:induction false} CountAllBands(ds: seq<Due>, today: Date)
    ensures Count(ds, today, {Vencido, Urgente, Proximo, Ok}) == |ds|
  {
    if ds != [] {
      CountAllBands(ds[1..], today);
    }
  }

  /** The records of `ds` inside the 30-day window, in their order. */
  function Within30(ds: seq<Due>, today: Date): (r: seq<Due>)
    ensures |r| <= |ds|
    ensures forall d :: multiset(r)[d] == if InWindow(d.fechaVencimiento, today) then multiset(ds)[d] else 0
  {
    if ds == [] then []
    else
      var rest := Within30(ds[1..], today);
      assert ds == [ds[0]] + ds[1..];
      if InWindow(ds[0].fechaVencimiento, today) then [ds[0]] + rest else rest
  }

  /** Ascending by expiry date. */
  predicate Sorted(ds: seq<Due>) {
    forall i, j :: 0 <= i < j < |ds| ==> ds[i].fechaVencimiento <= ds[j].fechaVencimiento
  }

  /** `s` with `d` inserted before the first record that does not expire earlier. */
  function Insert(d: Due, s: seq<Due>): (r: seq<Due>)
    requires Sorted(s)
    ensures Sorted(r)
    ensures multiset(r) == multiset(s) + multiset{d}
    ensures |r| == |s| + 1
    ensures r[0] == d || (s != [] && r[0] == s[0])
  {
    if s == [] then [d]
    else if d.fechaVencimiento <= s[0].fechaVencimiento then
      SortedCons(d, s);
      [d] + s
    else
      var rest := Insert(d, s[1..]);
      assert s == [s[0]] + s[1..];
      SortedCons(s[0], rest);
      [s[0]] + rest
  }

  /** A record no later than the head of a sorted sequence can go in front of it. */
  lemma SortedCons(d: Due, s: seq<Due>)
    requires Sorted(s)
    requires s == [] || d.fechaVencimiento <= s[0].fechaVencimiento
    ensures Sorted([d] + s)
  {
    var r := [d] + s;
    forall i, j | 0 <= i < j < |r| ensures r[i].fechaVencimiento <= r[j].fechaVencimiento {
      if i == 0 && j > 1 {
        assert s[0].fechaVencimiento <= s[j - 1].fechaVencimiento;
      }
    }
  }

  /** The records of `ds`, sorted ascending by expiry date. */
  function SortByExpiry(ds: seq<Due>): (r: seq<Due>)
    ensures Sorted(r)
    ensures multiset(r) == multiset(ds)
  {
    if ds == [] then []
    else
      assert ds == [ds[0]] + ds[1..];
      Insert(ds[0], SortByExpiry(ds[1..]))
  }

  /** The statistics of one collection, given as its projection to `Due` records. */
  function Summarize(ds: seq<Due>, today: Date): (r: Summary)
    ensures r.total == |ds|
    ensures r.vencidas == |Matching(ds, today, {Vencido})|
    ensures r.proximas == |Matching(ds, today, {Urgente, Proximo})|
    ensures r.vencidas + r.proximas <= r.total
    ensures Sorted(r.proximas30Dias)
    ensures multiset(r.proximas30Dias) == multiset(Within30(ds, today))
    ensures forall d :: d in r.proximas30Dias <==> d in ds && InWindow(d.fechaVencimiento, today)
    ensures forall d :: d in ds && StatusOf(d.fechaVencimiento, today) in {Urgente, Proximo} ==>
      d in r.proximas30Dias
  {
    CountDisjoint(ds, today, {Vencido}, {Urgente, Proximo});
    CountIsMatchingRecords(ds, today, {Vencido});
    CountIsMatchingRecords(ds, today, {Urgente, Proximo});
    var list := SortByExpiry(Within30(ds, today));
    assert forall d :: d in list <==> d in multiset(Within30(ds, today));
    Summary(|ds|, Count(ds, today, {Vencido}), Count(ds, today, {Urgente, Proximo}), list)
  }

  function LicenseDue(l: Licencias.License): Due {
    Due(l.legajo, l.fechaVencimiento)
  }

  function ExtinguisherDue(m: Matafuegos.Extinguisher): Due {
    Due(m.numeroCoche, m.fechaVencimiento)
  }

  function LicenseDues(s: seq<Licencias.License>): (ds: seq<Due>)
    ensures |ds| == |s|
    ensures forall i :: 0 <= i < |s| ==> ds[i] == LicenseDue(s[i])
  {
    if s == [] then [] else [LicenseDue(s[0])] + LicenseDues(s[1..])
  }

  function ExtinguisherDues(s: seq<Matafuegos.Extinguisher>): (ds: seq<Due>)
    ensures |ds| == |s|
    ensures forall i :: 0 <= i < |s| ==> ds[i] == ExtinguisherDue(s[i])
  {
    if s == [] then [] else [ExtinguisherDue(s[0])] + ExtinguisherDues(s[1..])
  }

  /** The positions of the records of `s` whose status on `today` is one of `bands`: `Matching`
      taken over the licences themselves rather than their projection (`LicenseMatching`). */
  ghost function LicensesWith(s: seq<Licencias.License>, today: Date, bands: set<Status>): set<int> {
    set i | 0 <= i < |s| && StatusOf(s[i].fechaVencimiento, today) in bands
  }

  /** The positions counted over the projection are the positions of the records. */
  lemma LicenseMatching(s: seq<Licencias.License>, today: Date, bands: set<Status>)
    ensures Matching(LicenseDues(s), today, bands) == LicensesWith(s, today, bands)
  {
    var ds := LicenseDues(s);
    assert forall i :: 0 <= i < |s| ==> ds[i].fechaVencimiento == s[i].fechaVencimiento;
  }

  /** The licence statistics: the 30-day list holds exactly the licences inside the window,
      each as its `legajo` and expiry date, and every licence counted as near is on it. */
  function LicenseSummary(s: seq<Licencias.License>, today: Date): (r: Summary)
    ensures r.total == |s|
    ensures r.vencidas == |LicensesWith(s, today, {Vencido})|
    ensures r.proximas == |LicensesWith(s, today, {Urgente, Proximo})|
    ensures r.vencidas + r.proximas <= r.total
    ensures Sorted(r.proximas30Dias)
    ensures multiset(r.proximas30Dias) == multiset(Within30(LicenseDues(s), today))
    ensures forall i :: 0 <= i < |s| && InWindow(s[i].fechaVencimiento, today) ==>
      LicenseDue(s[i]) in r.proximas30Dias
    ensures forall d :: d in r.proximas30Dias ==>
      exists i :: 0 <= i < |s| && LicenseDue(s[i]) == d && InWindow(s[i].fechaVencimiento, today)
    ensures forall i :: 0 <= i < |s| && StatusOf(s[i].fechaVencimiento, today) in {Urgente, Proximo} ==>
      LicenseDue(s[i]) in r.proximas30Dias
  {
    var ds := LicenseDues(s);
    var r := Summarize(ds, today);
    LicenseMatching(s, today, {Vencido});
    LicenseMatching(s, today, {Urgente, Proximo});
    assert forall i :: 0 <= i < |s| ==> LicenseDue(s[i]) in ds by {
      forall i | 0 <= i < |s| ensures LicenseDue(s[i]) in ds { assert ds[i] == LicenseDue(s[i]); }
    }
    r
  }

  /** The positions of the records of `s` whose status on `today` is one of `bands`: `Matching`
      taken over the extinguishers themselves rather than their projection
      (`ExtinguisherMatching`). */
  ghost function ExtinguishersWith(s: seq<Matafuegos.Extinguisher>, today: Date, bands: set<Status>): set<int> {
    set i | 0 <= i < |s| && StatusOf(s[i].fechaVencimiento, today) in bands
  }

  /** The positions counted over the projection are the positions of the records. */
  lemma ExtinguisherMatching(s: seq<Matafuegos.Extinguisher>, today: Date, bands: set<Status>)
    ensures Matching(ExtinguisherDues(s), today, bands) == ExtinguishersWith(s, today, bands)
  {
    var ds := ExtinguisherDues(s);
    assert forall i :: 0 <= i < |s| ==> ds[i].fechaVencimiento == s[i].fechaVencimiento;
  }

  /** The extinguisher statistics, with the 30-day list projected to `numeroCoche` and expiry
      date. */
  function ExtinguisherSummary(s: seq<Matafuegos.Extinguisher>, today: Date): (r: Summary)
    ensures r.total == |s|
    ensures r.vencidas == |ExtinguishersWith(s, today, {Vencido})|
    ensures r.proximas == |ExtinguishersWith(s, today, {Urgente, Proximo})|
    ensures r.vencidas + r.proximas <= r.total
    ensures Sorted(r.proximas30Dias)
    ensures multiset(r.proximas30Dias) == multiset(Within30(ExtinguisherDues(s), today))
    ensures forall i :: 0 <= i < |s| && InWindow(s[i].fechaVencimiento, today) ==>
      ExtinguisherDue(s[i]) in r.proximas30Dias
    ensures forall d :: d in r.proximas30Dias ==>
      exists i :: 0 <= i < |s| && ExtinguisherDue(s[i]) == d && InWindow(s[i].fechaVencimiento, today)
    ensures forall i :: 0 <= i < |s| && StatusOf(s[i].fechaVencimiento, today) in {Urgente, Proximo} ==>
      ExtinguisherDue(s[i]) in r.proximas30Dias
  {
    var ds := ExtinguisherDues(s);
    var r := Summarize(ds, today);
    ExtinguisherMatching(s, today, {Vencido});
    ExtinguisherMatching(s, today, {Urgente, Proximo});
    assert forall i :: 0 <= i < |s| ==> ExtinguisherDue(s[i]) in ds by {
      forall i | 0 <= i < |s| ensures ExtinguisherDue(s[i]) in ds { assert ds[i] == ExtinguisherDue(s[i]); }
    }
    r
  }

  /** The whole dashboard, from the two collections as loaded. */
  function ComputeStatistics(ls: seq<Licencias.License>, ms: seq<Matafuegos.Extinguisher>, today: Date)
    : (r: Statistics)
    ensures r.licencias.total == |ls| && r.matafuegos.total == |ms|
    ensures r.licencias.vencidas == |LicensesWith(ls, today, {Vencido})|
    ensures r.licencias.proximas == |LicensesWith(ls, today, {Urgente, Proximo})|
    ensures r.matafuegos.vencidas == |ExtinguishersWith(ms, today, {Vencido})|
    ensures r.matafuegos.proximas == |ExtinguishersWith(ms, today, {Urgente, Proximo})|
    ensures r.licencias.vencidas + r.licencias.proximas <= |ls|
    ensures r.matafuegos.vencidas + r.matafuegos.proximas <= |ms|
    ensures Sorted(r.licencias.proximas30Dias) && Sorted(r.matafuegos.proximas30Dias)
    ensures multiset(r.licencias.proximas30Dias) == multiset(Within30(LicenseDues(ls), today))
    ensures multiset(r.matafuegos.proximas30Dias) == multiset(Within30(ExtinguisherDues(ms), today))
  {
    Statistics(LicenseSummary(ls, today), ExtinguisherSummary(ms, today))
  }
}
