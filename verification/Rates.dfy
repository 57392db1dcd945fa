/** `_parse_per_kg_rates` once the price text is split into rates: refuse, price, and list each rate once. */
module Rates {
  import opened Prelude
  import opened Weights

  /** One captured rate: the resolved service, the rate as written and as a number, and the currency mark. */
  datatype Rate = Rate(service: string, text: string, rate: real, currency: Option<string>)

  datatype Priced = Priced(rate: Rate, cents: int)

  /** Captures count as the same when service, written rate and currency agree. */
  datatype RateKey = RateKey(service: string, text: string, currency: Option<string>)

  function KeyOf(r: Rate): RateKey {
    RateKey(r.service, r.text, r.currency)
  }

  function KeysOf(s: seq<Priced>): set<RateKey> {
    set x | x in s :: KeyOf(x.rate)
  }

  lemma SameKeyExactly(a: Rate, b: Rate)
    ensures KeyOf(a) == KeyOf(b) <==> a.service == b.service && a.text == b.text && a.currency == b.currency
  {}

  /** The captures that are priced: all but negative rates, in order. */
  function PricedRates(rates: seq<Rate>, thousandths: nat): seq<Priced> {
    if rates == [] then []
    else
      var n := |rates| - 1;
      PricedRates(rates[..n], thousandths)
      + if rates[n].rate < 0.0 then [] else [Priced(rates[n], Cents(rates[n].rate, thousandths))]
  }

  /** Each capture whose key did not occur before it. */
  function FirstOfEach(s: seq<Priced>): seq<Priced> {
    if s == [] then []
    else
      var n := |s| - 1;
      FirstOfEach(s[..n]) + if KeyOf(s[n].rate) in KeysOf(s[..n]) then [] else [s[n]]
  }

  function Total(s: seq<Priced>, service: string): Option<int> {
    if s == [] then None
    else if s[|s| - 1].rate.service == service then Some(s[|s| - 1].cents)
    else Total(s[..|s| - 1], service)
  }

  /** The option of each capture, in order. */
  method PriceAll(rates: seq<Rate>, thousandths: nat) returns (options: seq<Priced>)
    ensures options == PricedRates(rates, thousandths)
  {
    options := [];
    for i := 0 to |rates|
      invariant options == PricedRates(rates[..i], thousandths)
    {
      assert rates[..i + 1][..i] == rates[..i];
      if rates[i].rate >= 0.0 { options := options + [Priced(rates[i], Cents(rates[i].rate, thousandths))]; }
    }
    assert rates[..|rates|] == rates;
  }

  /** Duplicate captures dropped with a set of the keys seen. */
  method Dedupe(options: seq<Priced>) returns (deduped: seq<Priced>)
    ensures deduped == FirstOfEach(options)
  {
    deduped := [];
    var seen: set<RateKey> := {};
    for i := 0 to |options|
      invariant deduped == FirstOfEach(options[..i])
      invariant seen == KeysOf(options[..i])
    {
      assert options[..i + 1][..i] == options[..i];
      KeysGrow(options, i);
      if KeyOf(options[i].rate) !in seen {
        seen := seen + {KeyOf(options[i].rate)};
        deduped := deduped + [options[i]];
      }
    }
    assert options[..|options|] == options;
  }

  predicate TotalsOf(totals: map<string, int>, deduped: seq<Priced>, service: string) {
    && (service in totals <==> (service == "pickup" || service == "delivery") && Total(deduped, service).Some?)
    && (service in totals ==> Some(totals[service]) == Total(deduped, service))
  }

  /** The pickup and delivery totals: the last listed rate of each service. */
  method CalculateTotals(deduped: seq<Priced>) returns (totals: map<string, int>)
    ensures forall service :: TotalsOf(totals, deduped, service)
  {
    totals := map[];
    for i := 0 to |deduped|
      invariant forall service :: TotalsOf(totals, deduped[..i], service)
    {
      ghost var before := totals;
      var service := deduped[i].rate.service;
      if service == "pickup" || service == "delivery" { totals := totals[service := deduped[i].cents]; }
      ghost var longer := deduped[..i + 1];
      assert longer[..i] == deduped[..i];
      forall other ensures TotalsOf(totals, longer, other) {
        assert TotalsOf(before, deduped[..i], other);
      }
    }
    assert deduped[..|deduped|] == deduped;
  }

  /** The cents are the hundredth nearest to rate times weight, a tie going up. */
  ghost predicate PricedRight(x: Priced, thousandths: nat) {
    var exact := x.rate.rate * (thousandths as real / 1000.0) * 100.0;
    x.cents as real - 0.5 <= exact < x.cents as real + 0.5
  }

  /** How many of the first i captures are not negative. */
  function CountPriced(rates: seq<Rate>, i: nat): nat
    requires i <= |rates|
  {
    if i == 0 then 0 else CountPriced(rates, i - 1) + if rates[i - 1].rate < 0.0 then 0 else 1
  }

  /** Every capture that is not negative is priced, by its own rate and the weight, in capture order. */
  lemma {:induction false} PricedInPlace(rates: seq<Rate>, thousandths: nat, n: nat, i: nat)
    requires n <= |rates|
    ensures |PricedRates(rates[..n], thousandths)| == CountPriced(rates, n)
    ensures i < n && rates[i].rate >= 0.0 ==>
              var k := CountPriced(rates, i);
              && k < CountPriced(rates, n)
              && PricedRates(rates[..n], thousandths)[k].rate == rates[i]
              && PricedRight(PricedRates(rates[..n], thousandths)[k], thousandths)
  {
    if n > 0 {
      assert rates[..n][..n - 1] == rates[..n - 1];
      PricedInPlace(rates, thousandths, n - 1, i);
      if i == n - 1 { CentsRight(rates[i], thousandths); }
    }
  }

  lemma CentsRight(r: Rate, thousandths: nat)
    ensures PricedRight(Priced(r, Cents(r.rate, thousandths)), thousandths)
  {
    QuantizeIsNearest(r.rate * (thousandths as real / 1000.0), 100);
  }

  /** And nothing else is priced. */
  lemma {:induction false} PricedFrom(rates: seq<Rate>, thousandths: nat, k: nat) returns (i: nat)
    requires k < |PricedRates(rates, thousandths)|
    ensures i < |rates| && rates[i].rate >= 0.0 && PricedRates(rates, thousandths)[k].rate == rates[i]
    ensures PricedRight(PricedRates(rates, thousandths)[k], thousandths)
  {
    var n := |rates| - 1;
    if k < |PricedRates(rates[..n], thousandths)| {
      i := PricedFrom(rates[..n], thousandths, k);
    } else {
      i := n;
      CentsRight(rates[n], thousandths);
    }
  }

  /** Each listed option is a capture that is not negative, priced right, and each such capture's key is listed. */
  lemma ListedExactly(rates: seq<Rate>, thousandths: nat)
    ensures var listed := FirstOfEach(PricedRates(rates, thousandths));
            && (forall x :: x in listed ==> x.rate in rates && x.rate.rate >= 0.0 && PricedRight(x, thousandths))
            && (forall r :: r in rates && r.rate >= 0.0 ==> KeyOf(r) in KeysOf(listed))
  {
    var priced := PricedRates(rates, thousandths);
    var listed := FirstOfEach(priced);
    EachRateOnce(priced);
    forall x | x in listed ensures x.rate in rates && x.rate.rate >= 0.0 && PricedRight(x, thousandths) {
      var j :| 0 <= j < |listed| && listed[j] == x;
      var a := ListedAt(priced, j);
      var i := PricedFrom(rates, thousandths, a);
    }
    forall r | r in rates && r.rate >= 0.0 ensures KeyOf(r) in KeysOf(listed) {
      var i :| 0 <= i < |rates| && rates[i] == r;
      PricedInPlace(rates, thousandths, |rates|, i);
      assert rates[..|rates|] == rates;
      assert priced[CountPriced(rates, i)] in priced;
    }
  }

  /** The i-th entry is the last one of this service. */
  predicate IsLast(s: seq<Priced>, service: string, i: int) {
    0 <= i < |s| && s[i].rate.service == service && forall j :: i < j < |s| ==> s[j].rate.service != service
  }

  /** The total of a service is that of its last listed rate. */
  lemma {:induction false} TotalExactly(s: seq<Priced>, service: string, c: int)
    ensures Total(s, service) == Some(c) <==> exists i :: IsLast(s, service, i) && s[i].cents == c
  {
    if s != [] {
      var n := |s| - 1;
      if s[n].rate.service != service {
        TotalExactly(s[..n], service, c);
        if i :| IsLast(s[..n], service, i) && s[..n][i].cents == c { assert IsLast(s, service, i); }
        if i :| IsLast(s, service, i) && s[i].cents == c { assert IsLast(s[..n], service, i); }
      } else {
        assert IsLast(s, service, n);
      }
    }
  }

  /** The totals are those of the last pickup and the last delivery rate listed. */
  lemma TotalsExactly(totals: map<string, int>, s: seq<Priced>, service: string)
    requires TotalsOf(totals, s, service)
    ensures service in totals
       <==> (service == "pickup" || service == "delivery") && exists i :: IsLast(s, service, i)
    ensures service in totals ==> forall i :: IsLast(s, service, i) ==> totals[service] == s[i].cents
  {
    if Total(s, service).Some? {
      TotalExactly(s, service, Total(s, service).value);
    }
    forall i | IsLast(s, service, i) ensures Total(s, service) == Some(s[i].cents) {
      TotalExactly(s, service, s[i].cents);
    }
  }

  method ParsePerKgRates(rates: seq<Rate>, thousandths: nat) returns (deduped: seq<Priced>, totals: map<string, int>)
    ensures deduped == FirstOfEach(PricedRates(rates, thousandths))
    ensures forall x :: x in deduped ==> x.rate in rates && x.rate.rate >= 0.0 && PricedRight(x, thousandths)
    ensures forall r :: r in rates && r.rate >= 0.0 ==> KeyOf(r) in KeysOf(deduped)
    ensures forall service :: TotalsOf(totals, deduped, service)
    ensures forall service :: service in totals
              <==> (service == "pickup" || service == "delivery") && exists i :: IsLast(deduped, service, i)
    ensures forall service, i :: service in totals && IsLast(deduped, service, i) ==>
              totals[service] == deduped[i].cents
  {
    ListedExactly(rates, thousandths);
    var options := PriceAll(rates, thousandths);
    deduped := Dedupe(options);
    totals := CalculateTotals(deduped);
    forall service
      ensures service in totals
         <==> (service == "pickup" || service == "delivery") && exists i :: IsLast(deduped, service, i)
      ensures service in totals ==> forall i :: IsLast(deduped, service, i) ==> totals[service] == deduped[i].cents
    {
      TotalsExactly(totals, deduped, service);
    }
  }

  lemma KeysGrow(s: seq<Priced>, i: nat)
    requires i < |s|
    ensures KeysOf(s[..i + 1]) == KeysOf(s[..i]) + {KeyOf(s[i].rate)}
  {
    assert s[..i + 1] == s[..i] + [s[i]];
  }

  /** The listed rates have different keys, and every captured key is listed. */
  lemma {:induction false} EachRateOnce(s: seq<Priced>)
    ensures KeysOf(FirstOfEach(s)) == KeysOf(s)
    ensures var listed := FirstOfEach(s);
            forall i, j :: 0 <= i < j < |listed| ==> KeyOf(listed[i].rate) != KeyOf(listed[j].rate)
  {
    if s != [] {
      var n := |s| - 1;
      EachRateOnce(s[..n]);
      KeysGrow(s, n);
      assert s[..n + 1] == s;
      var front, all := FirstOfEach(s[..n]), FirstOfEach(s);
      if KeyOf(s[n].rate) !in KeysOf(s[..n]) {
        KeysGrow(all, |front|);
        assert all[..|front|] == front && all[..|front| + 1] == all;
        forall i | 0 <= i < |front| ensures KeyOf(front[i].rate) != KeyOf(s[n].rate) {
          assert front[i] in front && KeyOf(front[i].rate) in KeysOf(front);
        }
      } else {
        assert all == front;
      }
    }
  }

  /** A listed rate is the first capture with its key, and keeps the capture order. */
  lemma {:induction false} ListedInOrder(s: seq<Priced>, i: nat, j: nat) returns (a: nat, b: nat)
    requires i < j < |FirstOfEach(s)|
    ensures a < b < |s| && s[a] == FirstOfEach(s)[i] && s[b] == FirstOfEach(s)[j]
    ensures KeyOf(s[b].rate) !in KeysOf(s[..b]) && KeyOf(s[a].rate) !in KeysOf(s[..a])
  {
    var n := |s| - 1;
    var front := FirstOfEach(s[..n]);
    if j < |front| {
      a, b := ListedInOrder(s[..n], i, j);
      assert s[..n][..a] == s[..a] && s[..n][..b] == s[..b];
    } else {
      b := n;
      a := ListedAt(s[..n], i);
      assert s[..n][..a] == s[..a];
    }
  }

  lemma {:induction false} ListedAt(s: seq<Priced>, i: nat) returns (a: nat)
    requires i < |FirstOfEach(s)|
    ensures a < |s| && s[a] == FirstOfEach(s)[i] && KeyOf(s[a].rate) !in KeysOf(s[..a])
  {
    var n := |s| - 1;
    if i < |FirstOfEach(s[..n])| {
      a := ListedAt(s[..n], i);
      assert s[..n][..a] == s[..a];
    } else {
      a := n;
    }
  }
}
