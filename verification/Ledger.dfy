/** The usage ledger: budgets, admission holds and usage facts.  Reservations
    and facts are kept in insertion order, as the store's maps are. */
module Ledger {
  import opened Common

  type Currency = int

  datatype Funding = Funding(kind: int, id: int)

  /** The rate card: minor units per million tokens. */
  datatype Card = Card(currency: Currency, rateIn: int, rateOut: int, rateCached: Option<int>)

  datatype Budget = Budget(limit: int, card: Card)

  datatype Estimate = Estimate(inputTokens: int, outputBound: Option<int>)

  datatype Tokens = Tokens(input: Option<int>, output: Option<int>, cached: Option<int>)

  /** The call a hold or a fact is about, besides its id and its funding. */
  datatype Identity = Identity(kind: int, phase: int, turn: Option<TurnId>, input: Option<InputId>, round: int)

  datatype CallKey = CallKey(persona: Persona, fact: int)

  datatype HoldStatus = Held | Settled | Released

  /** An admission hold.  `card` snapshots the rate card that priced it; a call
      admitted while no budget existed has none and reserves nothing. */
  datatype Reservation = Reservation(
    key: CallKey, identity: Identity, funding: Funding, generation: nat,
    reserved: int, card: Option<Card>, estimate: Estimate, status: HoldStatus)

  datatype FactStatus = Unrecorded | Unknown | Reported | NotSent

  datatype Fact = Fact(
    key: CallKey, identity: Identity, funding: Funding, status: FactStatus,
    tokens: Tokens, cost: Option<int>, currency: Option<Currency>)

  datatype Ledger = Ledger(budgets: map<Funding, Budget>, reservations: seq<Reservation>, facts: seq<Fact>)

  // ------------------------------------------------------------------ pricing

  function PriceTokens(tokens: int, rate: int): (r: int)
    ensures r >= 0
  {
    if tokens <= 0 || rate <= 0 then 0 else CeilMillion(tokens * rate)
  }

  function CeilMillion(x: int): (r: int)
    ensures 1_000_000 * (r - 1) < x <= 1_000_000 * r
  {
    (x + 999_999) / 1_000_000
  }

  function PriceEstimate(e: Estimate, card: Card): (r: int)
    ensures r >= 0
  {
    PriceTokens(e.inputTokens, card.rateIn)
    + (match e.outputBound case Some(b) => PriceTokens(b, card.rateOut) case None => 0)
  }

  /** What a reported call costs: the token categories do not overlap. */
  function PriceReport(input: int, output: int, cached: int, card: Card): (r: int)
    ensures r >= 0
  {
    PriceTokens(input, card.rateIn) + PriceTokens(cached, card.rateCached.GetOr(card.rateIn))
    + PriceTokens(output, card.rateOut)
  }

  // -------------------------------------------------------------------- sums

  function FactCharge(f: Fact, fund: Funding, c: Currency): int {
    if f.funding == fund && f.currency == Some(c) then f.cost.GetOr(0) else 0
  }

  function HoldCharge(r: Reservation, fund: Funding, c: Currency): int {
    if r.funding == fund && r.status == Held && r.card.Some? && r.card.value.currency == c then r.reserved else 0
  }

  function Spent(facts: seq<Fact>, fund: Funding, c: Currency): int {
    if facts == [] then 0
    else Spent(facts[..|facts| - 1], fund, c) + FactCharge(facts[|facts| - 1], fund, c)
  }

  function HeldSum(rs: seq<Reservation>, fund: Funding, c: Currency): int {
    if rs == [] then 0
    else HeldSum(rs[..|rs| - 1], fund, c) + HoldCharge(rs[|rs| - 1], fund, c)
  }

  function Used(l: Ledger, fund: Funding, c: Currency): int {
    Spent(l.facts, fund, c) + HeldSum(l.reservations, fund, c)
  }

  /** Would admission admit this estimate under the card now in force? */
  predicate Fits(l: Ledger, fund: Funding, e: Estimate) {
    fund in l.budgets ==>
      var b := l.budgets[fund];
      var needed := PriceEstimate(e, b.card);
      needed <= b.limit && Used(l, fund, b.card.currency) <= b.limit - needed
  }

  // ------------------------------------------------------------------ lookups

  function FindHold(rs: seq<Reservation>, key: CallKey): (k: Option<nat>)
    ensures k.Some? ==> k.value < |rs| && rs[k.value].key == key
    ensures k.None? ==> forall i :: 0 <= i < |rs| ==> rs[i].key != key
  {
    if rs == [] then None
    else if rs[|rs| - 1].key == key then Some(|rs| - 1)
    else FindHold(rs[..|rs| - 1], key)
  }

  function FindFact(fs: seq<Fact>, key: CallKey): (k: Option<nat>)
    ensures k.Some? ==> k.value < |fs| && fs[k.value].key == key
    ensures k.None? ==> forall i :: 0 <= i < |fs| ==> fs[i].key != key
  {
    if fs == [] then None
    else if fs[|fs| - 1].key == key then Some(|fs| - 1)
    else FindFact(fs[..|fs| - 1], key)
  }

  // ---------------------------------------------------------------- admission

  datatype AdmitRequest = AdmitRequest(fact: int, identity: Identity, funding: Funding, estimate: Estimate, valid: bool)

  /** admitUsage below its fence: an existing hold replays, otherwise the
      estimate must fit and its hold is recorded. */
  function Admit(l: Ledger, p: Persona, generation: nat, req: AdmitRequest): (Ledger, Reply) {
    if !req.valid then (l, Refused(400)) else
    var key := CallKey(p, req.fact);
    var existing := FindHold(l.reservations, key);
    if existing.Some? then
      var r := l.reservations[existing.value];
      if r.funding != req.funding || r.status != Held then (l, Refused(409)) else (l, Ok)
    else if !Fits(l, req.funding, req.estimate) then (l, Denied)
    else
      var card := if req.funding in l.budgets then Some(l.budgets[req.funding].card) else None;
      var needed := match card case Some(c) => PriceEstimate(req.estimate, c) case None => 0;
      var hold := Reservation(key, req.identity, req.funding, generation, needed, card, req.estimate, Held);
      (l.(reservations := l.reservations + [hold]), Ok)
  }

  // ---------------------------------------------------------------- recording

  /** `status` is reported, unknown or not_sent (never Unrecorded). */
  datatype RecordRequest = RecordRequest(
    fact: int, identity: Identity, funding: Funding, status: FactStatus, tokens: Tokens, valid: bool)

  predicate Negative(v: Option<int>) { v.Some? && v.value < 0 }

  predicate BadTokens(req: RecordRequest) {
    || Negative(req.tokens.input) || Negative(req.tokens.output) || Negative(req.tokens.cached)
    || (req.status == Reported && (req.tokens.input.None? || req.tokens.output.None?))
    || (req.status == NotSent && req.tokens != Tokens(None, None, None))
  }

  /** The rate card of a record: the admission snapshot, else the budget now. */
  function CardFor(l: Ledger, hold: Option<Reservation>, fund: Funding): Option<Card> {
    if hold.Some? && hold.value.card.Some? then hold.value.card
    else if fund in l.budgets then Some(l.budgets[fund].card)
    else None
  }

  function Priced(l: Ledger, hold: Option<Reservation>, req: RecordRequest): (Option<int>, Option<Currency>) {
    var card := CardFor(l, hold, req.funding);
    if req.status == Reported && card.Some? && req.tokens.input.Some? && req.tokens.output.Some? then
      (Some(PriceReport(req.tokens.input.value, req.tokens.output.value, req.tokens.cached.GetOr(0), card.value)),
       Some(card.value.currency))
    else if req.status == Unknown && hold.Some? && hold.value.card.Some? then
      (Some(hold.value.reserved), Some(hold.value.card.value.currency))
    else (None, None)
  }

  function Resolved(l: Ledger, key: CallKey, hold: Option<Reservation>, req: RecordRequest): Fact {
    var (cost, currency) := Priced(l, hold, req);
    Fact(key, req.identity, req.funding, req.status, req.tokens, cost, currency)
  }

  predicate SuppliedAgree(f: Fact, t: Tokens) {
    && (t.input.None? || t.input == f.tokens.input)
    && (t.output.None? || t.output == f.tokens.output)
    && (t.cached.None? || t.cached == f.tokens.cached)
  }

  /** `resume` says whether the waits parked on the record's funding are
      re-evaluated. */
  datatype Recorded = Recorded(ledger: Ledger, reply: Reply, resume: bool)

  function SetStatus(rs: seq<Reservation>, k: nat, status: HoldStatus): seq<Reservation>
    requires k < |rs|
  {
    rs[k := rs[k].(status := status)]
  }

  function Record(l: Ledger, p: Persona, req: RecordRequest): Recorded {
    if !req.valid || req.status == Unrecorded || BadTokens(req) then Recorded(l, Refused(400), false) else
    var key := CallKey(p, req.fact);
    var h := FindHold(l.reservations, key);
    if h.Some? && l.reservations[h.value].funding != req.funding then Recorded(l, Refused(409), false) else
    var hold := match h case Some(k) => Some(l.reservations[k]) case None => None;
    var fact := Resolved(l, key, hold, req);
    match FindFact(l.facts, key)
    case Some(k) => RecordAgain(l, h, k, req, fact)
    case None =>
      var l1 := l.(facts := l.facts + [fact]);
      if h.None? then Recorded(l1, Ok, false)
      else if hold.value.status == Held then
        var status := if req.status == NotSent then Released else Settled;
        Recorded(l1.(reservations := SetStatus(l.reservations, h.value, status)), Ok, true)
      else Recorded(l1, Ok, true)
  }

  /** A record for a fact already on file: a replay, an upgrade or a conflict. */
  function RecordAgain(l: Ledger, h: Option<nat>, k: nat, req: RecordRequest, fact: Fact): Recorded
    requires k < |l.facts| && (h.Some? ==> h.value < |l.reservations|)
  {
    var prior := l.facts[k];
    if prior.identity != req.identity || prior.funding != req.funding then Recorded(l, Refused(409), false)
    else if (prior.status == req.status && prior.tokens == req.tokens)
         || (prior.status == Reported && req.status == Unknown && SuppliedAgree(prior, req.tokens))
    then Recorded(l, Ok, false)
    else if prior.status == Unrecorded || (prior.status == Unknown && req.status == Reported) then
      var l1 := l.(facts := l.facts[k := fact]);
      var l2 := if req.status == NotSent && h.Some?
                then l1.(reservations := SetStatus(l.reservations, h.value, Released)) else l1;
      Recorded(l2, Ok, true)
    else Recorded(l, Refused(409), false)
  }

  // ----------------------------------------------------------- reconciliation

  /** Which holds a commit or a recovery reconciles. */
  datatype Selector = OfTurn(persona: Persona, turn: TurnId) | BeforeGeneration(persona: Persona, generation: nat)

  predicate Selects(sel: Selector, r: Reservation) {
    && r.status == Held
    && r.key.persona == sel.persona
    && match sel
       case OfTurn(_, t) => r.identity.turn == Some(t)
       case BeforeGeneration(_, g) => r.generation < g
  }

  /** A held call whose record never arrived keeps its estimate as spend. */
  function LostRecord(r: Reservation): Fact {
    Fact(r.key, r.identity, r.funding, Unrecorded, Tokens(None, None, None),
         if r.card.Some? then Some(r.reserved) else None,
         if r.card.Some? then Some(r.card.value.currency) else None)
  }

  function ReconcileHold(l: Ledger, k: nat): Ledger
    requires k < |l.reservations|
  {
    var r := l.reservations[k];
    var facts := if FindFact(l.facts, r.key).Some? then l.facts else l.facts + [LostRecord(r)];
    l.(facts := facts, reservations := SetStatus(l.reservations, k, Settled))
  }

  function Reconcile(l: Ledger, sel: Selector, k: nat): Ledger
    requires k <= |l.reservations|
    decreases |l.reservations| - k
  {
    if k == |l.reservations| then l
    else if Selects(sel, l.reservations[k]) then Reconcile(ReconcileHold(l, k), sel, k + 1)
    else Reconcile(l, sel, k + 1)
  }

  // ---------------------------------------------------------------- invariant

  ghost predicate UniqueHolds(rs: seq<Reservation>) {
    forall a, b :: 0 <= a < b < |rs| ==> rs[a].key != rs[b].key
  }

  ghost predicate UniqueFacts(fs: seq<Fact>) {
    forall a, b :: 0 <= a < b < |fs| ==> fs[a].key != fs[b].key
  }

  ghost predicate HasFact(fs: seq<Fact>, key: CallKey) {
    exists k :: 0 <= k < |fs| && fs[k].key == key
  }

  /** A hold stands exactly while its call has no fact, and pays from the
      funding that admitted it. */
  ghost predicate Paired(rs: seq<Reservation>, fs: seq<Fact>) {
    && (forall a :: 0 <= a < |rs| ==> (rs[a].status == Held <==> !HasFact(fs, rs[a].key)))
    && (forall a, b :: 0 <= a < |rs| && 0 <= b < |fs| && rs[a].key == fs[b].key ==> rs[a].funding == fs[b].funding)
  }

  ghost predicate NonNegative(l: Ledger) {
    && (forall a :: 0 <= a < |l.reservations| ==> l.reservations[a].reserved >= 0)
    && (forall b :: 0 <= b < |l.facts| ==> l.facts[b].cost.GetOr(0) >= 0)
  }

  ghost predicate Balanced(l: Ledger) {
    UniqueHolds(l.reservations) && UniqueFacts(l.facts) && Paired(l.reservations, l.facts) && NonNegative(l)
  }

  // ---------------------------------------------------------------- sum lemmas

  lemma SpentSnoc(fs: seq<Fact>, f: Fact, fund: Funding, c: Currency)
    ensures Spent(fs + [f], fund, c) == Spent(fs, fund, c) + FactCharge(f, fund, c)
  {
    assert (fs + [f])[..|fs|] == fs;
  }

  lemma HeldSnoc(rs: seq<Reservation>, r: Reservation, fund: Funding, c: Currency)
    ensures HeldSum(rs + [r], fund, c) == HeldSum(rs, fund, c) + HoldCharge(r, fund, c)
  {
    assert (rs + [r])[..|rs|] == rs;
  }

  lemma {:induction false} SpentUpdate(fs: seq<Fact>, k: nat, f: Fact, fund: Funding, c: Currency)
    requires k < |fs|
    ensures Spent(fs[k := f], fund, c)
            == Spent(fs, fund, c) - FactCharge(fs[k], fund, c) + FactCharge(f, fund, c)
  {
    var n := |fs| - 1;
    if k == n {
      assert fs[k := f][..n] == fs[..n];
    } else {
      assert fs[k := f][..n] == fs[..n][k := f];
      SpentUpdate(fs[..n], k, f, fund, c);
    }
  }

  lemma {:induction false} HeldUpdate(rs: seq<Reservation>, k: nat, r: Reservation, fund: Funding, c: Currency)
    requires k < |rs|
    ensures HeldSum(rs[k := r], fund, c)
            == HeldSum(rs, fund, c) - HoldCharge(rs[k], fund, c) + HoldCharge(r, fund, c)
  {
    var n := |rs| - 1;
    if k == n {
      assert rs[k := r][..n] == rs[..n];
    } else {
      assert rs[k := r][..n] == rs[..n][k := r];
      HeldUpdate(rs[..n], k, r, fund, c);
    }
  }

  // ---------------------------------------------- every call counts exactly once

  /** The recorded cost of one call: at most one fact carries its key. */
  function CostOf(fs: seq<Fact>, key: CallKey, fund: Funding, c: Currency): int {
    if fs == [] then 0
    else CostOf(fs[..|fs| - 1], key, fund, c)
         + (if fs[|fs| - 1].key == key then FactCharge(fs[|fs| - 1], fund, c) else 0)
  }

  /** What an admitted call counts for: its hold while held, else its fact. */
  function AdmittedCharge(r: Reservation, fs: seq<Fact>, fund: Funding, c: Currency): int {
    if r.status == Held then HoldCharge(r, fund, c) else CostOf(fs, r.key, fund, c)
  }

  function AdmittedSum(rs: seq<Reservation>, fs: seq<Fact>, fund: Funding, c: Currency): int {
    if rs == [] then 0
    else AdmittedSum(rs[..|rs| - 1], fs, fund, c) + AdmittedCharge(rs[|rs| - 1], fs, fund, c)
  }

  ghost predicate Admitted(rs: seq<Reservation>, key: CallKey) {
    exists k :: 0 <= k < |rs| && rs[k].key == key
  }

  /** Facts of calls no admission ever held. */
  ghost function UnadmittedSum(fs: seq<Fact>, rs: seq<Reservation>, fund: Funding, c: Currency): int {
    if fs == [] then 0
    else UnadmittedSum(fs[..|fs| - 1], rs, fund, c)
         + (if Admitted(rs, fs[|fs| - 1].key) then 0 else FactCharge(fs[|fs| - 1], fund, c))
  }

  lemma {:induction false} CostOfNone(fs: seq<Fact>, key: CallKey, fund: Funding, c: Currency)
    requires !HasFact(fs, key)
    ensures CostOf(fs, key, fund, c) == 0
  {
    if fs != [] {
      var m := fs[..|fs| - 1];
      CostOfNone(m, key, fund, c);
      assert fs[|fs| - 1].key != key;
    }
  }

  lemma {:induction false} NoneAdmitted(fs: seq<Fact>, fund: Funding, c: Currency)
    ensures UnadmittedSum(fs, [], fund, c) == Spent(fs, fund, c)
  {
    if fs != [] { NoneAdmitted(fs[..|fs| - 1], fund, c); }
  }

  /** Admitting one more call moves exactly that call's cost. */
  lemma {:induction false} AdmitOne(fs: seq<Fact>, rs: seq<Reservation>, r: Reservation, fund: Funding, c: Currency)
    requires !Admitted(rs, r.key)
    ensures UnadmittedSum(fs, rs, fund, c)
            == UnadmittedSum(fs, rs + [r], fund, c) + CostOf(fs, r.key, fund, c)
  {
    if fs != [] {
      AdmitOne(fs[..|fs| - 1], rs, r, fund, c);
      var key := fs[|fs| - 1].key;
      assert Admitted(rs + [r], key) <==> Admitted(rs, key) || key == r.key by {
        if Admitted(rs, key) {
          var k :| 0 <= k < |rs| && rs[k].key == key;
          assert (rs + [r])[k].key == key;
        }
        assert (rs + [r])[|rs|] == r;
      }
    }
  }

  /** Spend plus holds is the sum, over the admitted calls, of each call's one
      charge, plus the facts no admission ever held. */
  lemma {:induction false} EachCallCountsOnce(rs: seq<Reservation>, fs: seq<Fact>, fund: Funding, c: Currency)
    requires UniqueHolds(rs)
    requires forall a :: 0 <= a < |rs| ==> (rs[a].status == Held <==> !HasFact(fs, rs[a].key))
    ensures Spent(fs, fund, c) + HeldSum(rs, fund, c)
            == AdmittedSum(rs, fs, fund, c) + UnadmittedSum(fs, rs, fund, c)
  {
    if rs == [] {
      NoneAdmitted(fs, fund, c);
    } else {
      var m, r := rs[..|rs| - 1], rs[|rs| - 1];
      EachCallCountsOnce(m, fs, fund, c);
      assert rs == m + [r];
      AdmitOne(fs, m, r, fund, c);
      if r.status == Held { CostOfNone(fs, r.key, fund, c); }
    }
  }

  lemma Conservation(l: Ledger, fund: Funding, c: Currency)
    requires Balanced(l)
    ensures Used(l, fund, c)
            == AdmittedSum(l.reservations, l.facts, fund, c) + UnadmittedSum(l.facts, l.reservations, fund, c)
  {
    EachCallCountsOnce(l.reservations, l.facts, fund, c);
  }

  // ------------------------------------------------------ what each step keeps

  /** The call was never recorded outside an admission: the caller admits a
      call before it records it. */
  ghost predicate AdmittedFirst(l: Ledger, key: CallKey) {
    HasFact(l.facts, key) ==> Admitted(l.reservations, key)
  }

  lemma AdmitBalanced(l: Ledger, p: Persona, generation: nat, req: AdmitRequest)
    requires Balanced(l) && AdmittedFirst(l, CallKey(p, req.fact))
    ensures Balanced(Admit(l, p, generation, req).0)
  {
    var l' := Admit(l, p, generation, req).0;
    if l' != l {
      var n := |l.reservations|;
      assert l'.reservations[..n] == l.reservations;
      assert forall a :: 0 <= a < n ==> l'.reservations[a] == l.reservations[a];
    }
  }

  /** Admission only adds a hold: no other figure moves and none goes down. */
  lemma AdmitUsed(l: Ledger, p: Persona, generation: nat, req: AdmitRequest, fund: Funding, c: Currency)
    ensures var l' := Admit(l, p, generation, req).0;
            && l'.facts == l.facts && l'.budgets == l.budgets
            && Used(l', fund, c) >= Used(l, fund, c)
  {
    var l' := Admit(l, p, generation, req).0;
    if l' != l {
      HeldSnoc(l.reservations, l'.reservations[|l.reservations|], fund, c);
    }
  }

  /** A hold is only granted inside the cap. */
  lemma AdmitWithinLimit(l: Ledger, p: Persona, generation: nat, req: AdmitRequest, fund: Funding)
    requires fund in l.budgets
    requires Used(l, fund, l.budgets[fund].card.currency) <= l.budgets[fund].limit
    ensures Used(Admit(l, p, generation, req).0, fund, l.budgets[fund].card.currency) <= l.budgets[fund].limit
  {
    var l' := Admit(l, p, generation, req).0;
    if l' != l {
      HeldSnoc(l.reservations, l'.reservations[|l.reservations|], fund, l.budgets[fund].card.currency);
    }
  }

  lemma SettleOne(rs: seq<Reservation>, fs: seq<Fact>, k: nat, f: Fact, status: HoldStatus)
    requires UniqueHolds(rs) && UniqueFacts(fs) && Paired(rs, fs)
    requires k < |rs| && rs[k].key == f.key && rs[k].funding == f.funding && rs[k].status == Held
    requires status != Held
    ensures UniqueFacts(fs + [f]) && UniqueHolds(SetStatus(rs, k, status))
    ensures Paired(SetStatus(rs, k, status), fs + [f])
  {
    var rs', fs' := SetStatus(rs, k, status), fs + [f];
    assert !HasFact(fs, f.key);
    assert fs'[|fs|] == f;
    assert forall b :: 0 <= b < |fs| ==> fs'[b] == fs[b];
    forall a | 0 <= a < |rs'| ensures rs'[a].status == Held <==> !HasFact(fs', rs'[a].key) {
      HasFactSnoc(fs, f, rs'[a].key);
    }
  }

  lemma HasFactSnoc(fs: seq<Fact>, f: Fact, key: CallKey)
    ensures HasFact(fs + [f], key) <==> HasFact(fs, key) || f.key == key
  {
    var fs' := fs + [f];
    assert fs'[|fs|] == f;
    if HasFact(fs, key) {
      var k :| 0 <= k < |fs| && fs[k].key == key;
      assert fs'[k].key == key;
    }
  }

  lemma AddUnadmitted(rs: seq<Reservation>, fs: seq<Fact>, f: Fact)
    requires UniqueFacts(fs) && Paired(rs, fs) && !HasFact(fs, f.key)
    requires forall a :: 0 <= a < |rs| ==> rs[a].key != f.key
    ensures UniqueFacts(fs + [f]) && Paired(rs, fs + [f])
  {
    var fs' := fs + [f];
    assert fs'[|fs|] == f && forall b :: 0 <= b < |fs| ==> fs'[b] == fs[b];
    forall a | 0 <= a < |rs| ensures rs[a].status == Held <==> !HasFact(fs', rs[a].key) {
      HasFactSnoc(fs, f, rs[a].key);
    }
  }

  /** Replacing a fact by one about the same call, and releasing its hold. */
  lemma ReplaceFact(rs: seq<Reservation>, rs': seq<Reservation>, fs: seq<Fact>, k: nat, f: Fact)
    requires UniqueHolds(rs) && UniqueFacts(fs) && Paired(rs, fs)
    requires k < |fs| && f.key == fs[k].key && f.funding == fs[k].funding
    requires |rs'| == |rs|
    requires forall a :: 0 <= a < |rs| ==>
               rs'[a] == rs[a] || (rs[a].key == f.key && rs'[a] == rs[a].(status := Released))
    ensures UniqueFacts(fs[k := f]) && UniqueHolds(rs') && Paired(rs', fs[k := f])
  {
    var fs' := fs[k := f];
    forall key ensures HasFact(fs', key) <==> HasFact(fs, key) {
      if HasFact(fs, key) {
        var b :| 0 <= b < |fs| && fs[b].key == key;
        assert fs'[b].key == key;
      }
    }
    assert HasFact(fs, f.key);
  }

  lemma RecordBalanced(l: Ledger, p: Persona, req: RecordRequest)
    requires Balanced(l)
    ensures Balanced(Record(l, p, req).ledger)
  {
    var key := CallKey(p, req.fact);
    var l' := Record(l, p, req).ledger;
    if l' != l {
      var h, k := FindHold(l.reservations, key), FindFact(l.facts, key);
      var hold := match h case Some(i) => Some(l.reservations[i]) case None => None;
      var fact := Resolved(l, key, hold, req);
      if k.Some? {
        ReplaceFact(l.reservations, l'.reservations, l.facts, k.value, fact);
      } else if h.None? {
        AddUnadmitted(l.reservations, l.facts, fact);
      } else {
        SettleOne(l.reservations, l.facts, h.value, fact, l'.reservations[h.value].status);
      }
    }
  }

  /** A record moves the figures of its own funding only, and re-evaluates that
      funding whenever it could have freed headroom there. */
  lemma RecordUsed(l: Ledger, p: Persona, req: RecordRequest, fund: Funding, c: Currency)
    requires Balanced(l)
    ensures Record(l, p, req).ledger.budgets == l.budgets
    ensures fund != req.funding ==> Used(Record(l, p, req).ledger, fund, c) == Used(l, fund, c)
    ensures fund != req.funding || !Record(l, p, req).resume ==> Used(Record(l, p, req).ledger, fund, c) >= Used(l, fund, c)
  {
    var key := CallKey(p, req.fact);
    var l' := Record(l, p, req).ledger;
    if l' != l {
      var h, k := FindHold(l.reservations, key), FindFact(l.facts, key);
      var hold := match h case Some(i) => Some(l.reservations[i]) case None => None;
      var fact := Resolved(l, key, hold, req);
      if k.Some? {
        SpentUpdate(l.facts, k.value, fact, fund, c);
        if h.Some? && l'.reservations != l.reservations {
          HeldUpdate(l.reservations, h.value, l'.reservations[h.value], fund, c);
          assert HasFact(l.facts, l.reservations[h.value].key);
        }
      } else {
        SpentSnoc(l.facts, fact, fund, c);
        if h.Some? && l'.reservations != l.reservations {
          HeldUpdate(l.reservations, h.value, l'.reservations[h.value], fund, c);
        }
      }
    }
  }

  lemma ReconcileHoldKeeps(l: Ledger, k: nat)
    requires Balanced(l) && k < |l.reservations| && l.reservations[k].status == Held
    ensures Balanced(ReconcileHold(l, k))
    ensures ReconcileHold(l, k).budgets == l.budgets
    ensures forall fund, c :: Used(ReconcileHold(l, k), fund, c) == Used(l, fund, c)
  {
    var r := l.reservations[k];
    assert !HasFact(l.facts, r.key);
    SettleOne(l.reservations, l.facts, k, LostRecord(r), Settled);
    forall fund, c ensures Used(ReconcileHold(l, k), fund, c) == Used(l, fund, c) {
      SpentSnoc(l.facts, LostRecord(r), fund, c);
      HeldUpdate(l.reservations, k, r.(status := Settled), fund, c);
    }
  }

  /** Turning holds into unrecorded facts frees nothing, on any funding. */
  lemma {:induction false} ReconcileKeeps(l: Ledger, sel: Selector, k: nat)
    requires Balanced(l) && k <= |l.reservations|
    ensures Balanced(Reconcile(l, sel, k))
    ensures Reconcile(l, sel, k).budgets == l.budgets
    ensures forall fund, c :: Used(Reconcile(l, sel, k), fund, c) == Used(l, fund, c)
    decreases |l.reservations| - k
  {
    if k < |l.reservations| {
      if Selects(sel, l.reservations[k]) {
        ReconcileHoldKeeps(l, k);
        ReconcileKeeps(ReconcileHold(l, k), sel, k + 1);
      } else {
        ReconcileKeeps(l, sel, k + 1);
      }
    }
  }

  /** After reconciling, no selected hold is left. */
  lemma {:induction false} ReconcileClears(l: Ledger, sel: Selector, k: nat)
    requires k <= |l.reservations|
    requires forall a :: 0 <= a < k ==> !Selects(sel, l.reservations[a])
    ensures |Reconcile(l, sel, k).reservations| == |l.reservations|
    ensures forall a :: 0 <= a < |l.reservations| ==> !Selects(sel, Reconcile(l, sel, k).reservations[a])
    decreases |l.reservations| - k
  {
    if k < |l.reservations| {
      if Selects(sel, l.reservations[k]) {
        ReconcileClears(ReconcileHold(l, k), sel, k + 1);
      } else {
        ReconcileClears(l, sel, k + 1);
      }
    }
  }

  // -------------------------------------------------------- the fact lattice

  /** unrecorded may become anything, unknown may become reported, and reported
      and not_sent are final; the call and its funding never change. */
  predicate Up(f: Fact, g: Fact) {
    || f == g
    || (&& f.key == g.key && f.identity == g.identity && f.funding == g.funding
        && g.status != Unrecorded
        && (f.status == Unrecorded || (f.status == Unknown && g.status == Reported)))
  }

  ghost predicate FactsGrow(fs: seq<Fact>, fs': seq<Fact>) {
    |fs| <= |fs'| && forall k :: 0 <= k < |fs| ==> Up(fs[k], fs'[k])
  }

  lemma RecordMovesUp(l: Ledger, p: Persona, req: RecordRequest)
    ensures FactsGrow(l.facts, Record(l, p, req).ledger.facts)
  {
  }

  lemma {:induction false} ReconcileMovesUp(l: Ledger, sel: Selector, k: nat)
    requires k <= |l.reservations|
    ensures FactsGrow(l.facts, Reconcile(l, sel, k).facts)
    decreases |l.reservations| - k
  {
    if k < |l.reservations| {
      if Selects(sel, l.reservations[k]) {
        ReconcileMovesUp(ReconcileHold(l, k), sel, k + 1);
      } else {
        ReconcileMovesUp(l, sel, k + 1);
      }
    }
  }

  lemma UpTransitive(f: Fact, g: Fact, h: Fact)
    requires Up(f, g) && Up(g, h)
    ensures Up(f, h)
  {
  }

  // ------------------------------------------------------------------ the cap

  /** The record of an admitted call costs at most what its hold reserved in the
      currency `c`, and an unadmitted call charges nothing to `fund`. */
  ghost predicate WithinHold(l: Ledger, p: Persona, req: RecordRequest, fund: Funding, c: Currency) {
    var key := CallKey(p, req.fact);
    var h := FindHold(l.reservations, key);
    var hold := match h case Some(i) => Some(l.reservations[i]) case None => None;
    var reserved :=
      if hold.Some? && hold.value.card.Some? && hold.value.card.value.currency == c then hold.value.reserved else 0;
    var k := FindFact(l.facts, key);
    req.funding == fund ==>
      FactCharge(Resolved(l, key, hold, req), fund, c)
      <= if k.Some? then FactCharge(l.facts[k.value], fund, c) else reserved
  }

  /** Under an unchanged cap, a record within its hold (or within the estimate
      it replaces) leaves spend plus holds no higher than before. */
  lemma RecordWithinHold(l: Ledger, p: Persona, req: RecordRequest, fund: Funding, c: Currency)
    requires Balanced(l) && WithinHold(l, p, req, fund, c)
    ensures Used(Record(l, p, req).ledger, fund, c) <= Used(l, fund, c)
  {
    var key := CallKey(p, req.fact);
    var l' := Record(l, p, req).ledger;
    if l' != l {
      var h, k := FindHold(l.reservations, key), FindFact(l.facts, key);
      var hold := match h case Some(i) => Some(l.reservations[i]) case None => None;
      var fact := Resolved(l, key, hold, req);
      if k.Some? {
        SpentUpdate(l.facts, k.value, fact, fund, c);
        if h.Some? && l'.reservations != l.reservations {
          HeldUpdate(l.reservations, h.value, l'.reservations[h.value], fund, c);
        }
      } else {
        SpentSnoc(l.facts, fact, fund, c);
        if h.Some? {
          HeldUpdate(l.reservations, h.value, l'.reservations[h.value], fund, c);
          assert l.reservations[h.value].status == Held;
        }
      }
    }
  }

  // -------------------------------------------------------- price of a report

  lemma MulMonotone(a: int, b: int, r: int)
    requires a <= b && r >= 0
    ensures a * r <= b * r
  {
  }

  lemma PriceMonotone(a: int, b: int, rate: int)
    requires a <= b
    ensures PriceTokens(a, rate) <= PriceTokens(b, rate)
  {
    if rate > 0 && a > 0 { MulMonotone(a, b, rate); }
  }

  lemma PriceRateMonotone(a: int, lo: int, hi: int)
    requires lo <= hi
    ensures PriceTokens(a, lo) <= PriceTokens(a, hi)
  {
    if a > 0 && lo > 0 { MulMonotone(lo, hi, a); }
  }

  /** Two categories priced apart cost at most one minor unit more than their
      sum priced once. */
  lemma PriceSplit(a: int, b: int, rate: int)
    requires a >= 0 && b >= 0
    ensures PriceTokens(a, rate) + PriceTokens(b, rate) <= PriceTokens(a + b, rate) + 1
  {
    if rate > 0 && a > 0 && b > 0 {
      assert (a + b) * rate == a * rate + b * rate;
    }
  }

  /** A report inside its estimate, with a cached rate no higher than the input
      rate, costs at most one minor unit more than its hold. */
  lemma ReportWithinEstimate(e: Estimate, card: Card, input: int, output: int, cached: int)
    requires input >= 0 && output >= 0 && cached >= 0
    requires input + cached <= e.inputTokens && e.outputBound.Some? && output <= e.outputBound.value
    requires card.rateCached.GetOr(card.rateIn) <= card.rateIn
    ensures PriceReport(input, output, cached, card) <= PriceEstimate(e, card) + 1
  {
    PriceRateMonotone(cached, card.rateCached.GetOr(card.rateIn), card.rateIn);
    PriceSplit(input, cached, card.rateIn);
    PriceMonotone(input + cached, e.inputTokens, card.rateIn);
    PriceMonotone(output, e.outputBound.value, card.rateOut);
  }

  /** The extra unit is real: 1 input and 1 cached token at a rate of one minor
      unit per token-million are each rounded up. */
  lemma ReportCanExceedHold()
    ensures var card := Card(0, 1, 1, None);
            PriceReport(1, 0, 1, card) == PriceEstimate(Estimate(2, Some(0)), card) + 1
  {
  }

  const FUND := Funding(0, 0)
  const CALL := Identity(0, 0, None, None, 0)
  const UNIT := Card(0, 1_000_000, 1_000_000, None)
  const PAID := Fact(CallKey(7, 1), CALL, FUND, Reported, Tokens(Some(2), Some(0), None), Some(2), Some(0))
  const HOLD := Reservation(CallKey(7, 1), CALL, FUND, 1, 3, Some(UNIT), Estimate(3, None), Held)

  lemma RecordUnadmitted()
    ensures var l := Ledger(map[FUND := Budget(10, UNIT)], [], []);
            Record(l, 7, RecordRequest(1, CALL, FUND, Reported, Tokens(Some(2), Some(0), None), true)).ledger
            == l.(facts := [PAID])
  {
  }

  lemma AdmitRecorded(l: Ledger)
    requires l == Ledger(map[FUND := Budget(10, UNIT)], [], [PAID])
    ensures Used(l, FUND, 0) == 2
    ensures Admit(l, 7, 1, AdmitRequest(1, CALL, FUND, Estimate(3, None), true)).0 == l.(reservations := [HOLD])
  {
    SpentSnoc([], PAID, FUND, 0);
    assert l.facts == [] + [PAID];
  }

  /** Recording a call before admitting it counts that call twice: after a
      2-unit call is recorded and then admitted, 5 units are in use and a hold
      stands beside its own fact. */
  lemma AdmitAfterRecordDoubles()
    ensures var l := Ledger(map[FUND := Budget(10, UNIT)], [], []);
            var l1 := Record(l, 7, RecordRequest(1, CALL, FUND, Reported, Tokens(Some(2), Some(0), None), true)).ledger;
            var l2 := Admit(l1, 7, 1, AdmitRequest(1, CALL, FUND, Estimate(3, None), true)).0;
            Used(l1, FUND, 0) == 2 && Used(l2, FUND, 0) == 5 && !Balanced(l2)
  {
    RecordUnadmitted();
    var l1 := Ledger(map[FUND := Budget(10, UNIT)], [], [PAID]);
    AdmitRecorded(l1);
    var l2 := l1.(reservations := [HOLD]);
    HeldSnoc([], HOLD, FUND, 0);
    assert l2.reservations == [] + [HOLD];
    assert l2.facts[0].key == l2.reservations[0].key;
  }

  /** Exactly the admissions that keep the books: a call already on the facts
      without a hold is the only one that breaks them. */
  lemma AdmitKeepsBooksIff(l: Ledger, p: Persona, generation: nat, req: AdmitRequest)
    requires Balanced(l) && Admit(l, p, generation, req).0 != l
    ensures Balanced(Admit(l, p, generation, req).0) <==> AdmittedFirst(l, CallKey(p, req.fact))
  {
    var l' := Admit(l, p, generation, req).0;
    if AdmittedFirst(l, CallKey(p, req.fact)) {
      AdmitBalanced(l, p, generation, req);
    } else {
      var n := |l.reservations|;
      assert l'.reservations[n].key == CallKey(p, req.fact) && l'.reservations[n].status == Held;
    }
  }

  // ------------------------------------------------------------ what is answered

  /** `r` is the least whole number of minor units that pays for the tokens. */
  predicate Pays(tokens: int, rate: int, r: int) {
    var due := Max(tokens, 0) * Max(rate, 0);
    r >= 0 && due <= 1_000_000 * r && (r > 0 ==> 1_000_000 * (r - 1) < due)
  }

  lemma PriceIsLeast(tokens: int, rate: int)
    ensures Pays(tokens, rate, PriceTokens(tokens, rate))
    ensures forall r :: Pays(tokens, rate, r) ==> r == PriceTokens(tokens, rate)
  {
    if tokens <= 0 || rate <= 0 {
      assert Max(tokens, 0) * Max(rate, 0) == 0;
    } else {
      assert tokens * rate > 0;
    }
  }

  /** A report costs what its input, its cached and its output tokens cost, each
      rounded up on its own; an estimate its input and its bound on the output. */
  lemma PricesAdd(input: int, output: int, cached: int, card: Card, e: Estimate, a: int, b: int, c: int)
    requires Pays(input, card.rateIn, a) && Pays(output, card.rateOut, b)
    requires Pays(cached, if card.rateCached.Some? then card.rateCached.value else card.rateIn, c)
    ensures PriceReport(input, output, cached, card) == a + b + c
    ensures e.inputTokens == input && e.outputBound == Some(output) ==> PriceEstimate(e, card) == a + b
    ensures e.inputTokens == input && e.outputBound.None? ==> PriceEstimate(e, card) == a
  {
    PriceIsLeast(input, card.rateIn);
    PriceIsLeast(output, card.rateOut);
    PriceIsLeast(cached, if card.rateCached.Some? then card.rateCached.value else card.rateIn);
  }

  /** A million tokens of one kind cost exactly that kind's rate. */
  lemma MillionCostsRate(card: Card, rateCached: int)
    requires card.rateIn >= 0 && card.rateOut >= 0 && rateCached >= 0 && card.rateCached == Some(rateCached)
    ensures PriceReport(1_000_000, 0, 0, card) == card.rateIn
    ensures PriceReport(0, 1_000_000, 0, card) == card.rateOut
    ensures PriceReport(0, 0, 1_000_000, card) == rateCached
  {
  }

  /** The estimate, priced under the card in force, does not fit under the limit on
      top of what is spent and held. */
  ghost predicate Overdrawn(l: Ledger, fund: Funding, e: Estimate) {
    && fund in l.budgets
    && var b := l.budgets[fund];
       var needed, c := PriceEstimate(e, b.card), b.card.currency;
       needed > b.limit || needed + Spent(l.facts, fund, c) + HeldSum(l.reservations, fund, c) > b.limit
  }

  /** The one hold of the call. */
  ghost predicate HoldAt(l: Ledger, key: CallKey, k: int) {
    0 <= k < |l.reservations| && l.reservations[k].key == key && forall h :: k < h < |l.reservations| ==> l.reservations[h].key != key
  }

  lemma {:induction false} FoundHold(rs: seq<Reservation>, key: CallKey, k: nat)
    requires k < |rs| && rs[k].key == key && forall h :: k < h < |rs| ==> rs[h].key != key
    ensures FindHold(rs, key) == Some(k)
  {
    if k < |rs| - 1 { FoundHold(rs[..|rs| - 1], key, k); }
  }

  lemma {:induction false} FoundFact(fs: seq<Fact>, key: CallKey, k: nat)
    requires k < |fs| && fs[k].key == key && forall h :: k < h < |fs| ==> fs[h].key != key
    ensures FindFact(fs, key) == Some(k)
  {
    if k < |fs| - 1 { FoundFact(fs[..|fs| - 1], key, k); }
  }

  /** An admission the ledger does not know is denied exactly when it would overdraw
      its funding; otherwise it holds its price, under a snapshot of the card, for
      the generation that asked. */
  lemma AdmitAnswers(l: Ledger, p: Persona, g: nat, req: AdmitRequest)
    requires req.valid && forall k :: 0 <= k < |l.reservations| ==> l.reservations[k].key != CallKey(p, req.fact)
    ensures var (l', reply) := Admit(l, p, g, req);
            if Overdrawn(l, req.funding, req.estimate) then l' == l && reply == Denied
            else
              && reply == Ok && l'.budgets == l.budgets && l'.facts == l.facts && |l'.reservations| == |l.reservations| + 1
              && l'.reservations[..|l.reservations|] == l.reservations
              && var r := l'.reservations[|l.reservations|];
                 && r.key == CallKey(p, req.fact) && r.identity == req.identity && r.funding == req.funding
                 && r.generation == g && r.estimate == req.estimate && r.status == Held
                 && (req.funding in l.budgets ==>
                       r.card == Some(l.budgets[req.funding].card) && r.reserved == PriceEstimate(req.estimate, r.card.value))
                 && (req.funding !in l.budgets ==> r.card.None? && r.reserved == 0)
  {
    hide PriceEstimate, Spent, HeldSum;
  }

  /** Admitting again answers from the hold: accepted while it is held for the same
      funding, a conflict otherwise; and changes nothing. */
  lemma AdmitReplays(l: Ledger, p: Persona, g: nat, req: AdmitRequest, k: nat)
    requires req.valid && HoldAt(l, CallKey(p, req.fact), k)
    ensures Admit(l, p, g, req).0 == l
    ensures Admit(l, p, g, req).1 == if l.reservations[k].funding == req.funding && l.reservations[k].status == Held then Ok else Refused(409)
  {
    FoundHold(l.reservations, CallKey(p, req.fact), k);
  }

  /** The rate card a record is priced with: the hold's, else the budget's. */
  ghost predicate PricedBy(l: Ledger, key: CallKey, fund: Funding, card: Option<Card>) {
    (exists k :: HoldAt(l, key, k) && l.reservations[k].card.Some? && card == l.reservations[k].card)
    || ((forall k :: HoldAt(l, key, k) ==> l.reservations[k].card.None?)
        && card == if fund in l.budgets then Some(l.budgets[fund].card) else None)
  }

  /** The fact a record leaves: what was sent, and its cost: a report priced with the
      call's card, an unknown one at the price it was held for, one never sent at none. */
  ghost predicate Entered(l: Ledger, key: CallKey, req: RecordRequest, card: Option<Card>, f: Fact) {
    && f.key == key && f.identity == req.identity && f.funding == req.funding && f.status == req.status && f.tokens == req.tokens
    && (req.status == Reported && card.Some? ==>
          req.tokens.input.Some? && req.tokens.output.Some?
          && f.cost == Some(PriceReport(req.tokens.input.value, req.tokens.output.value, req.tokens.cached.GetOr(0), card.value))
          && f.currency == Some(card.value.currency))
    && ((req.status == Reported && card.None?) || req.status == NotSent ==> f.cost.None? && f.currency.None?)
    && (req.status == Unknown && (forall k :: !HoldAt(l, key, k)) ==> f.cost.None? && f.currency.None?)
    && (req.status == Unknown ==> forall k :: HoldAt(l, key, k) ==>
          var r := l.reservations[k];
          if r.card.Some? then f.cost == Some(r.reserved) && f.currency == Some(r.card.value.currency) else f.cost.None? && f.currency.None?)
  }

  /** The first record of a call is kept as sent, with its cost, and the call's hold
      ends, released exactly when nothing was sent. */
  lemma RecordAnswers(l: Ledger, p: Persona, req: RecordRequest, card: Option<Card>)
    requires req.valid && req.status != Unrecorded && !BadTokens(req)
    requires forall k :: 0 <= k < |l.facts| ==> l.facts[k].key != CallKey(p, req.fact)
    requires forall k :: HoldAt(l, CallKey(p, req.fact), k) ==> l.reservations[k].funding == req.funding
    requires PricedBy(l, CallKey(p, req.fact), req.funding, card)
    ensures var l', key := Record(l, p, req).ledger, CallKey(p, req.fact);
            && Record(l, p, req).reply == Ok && l'.budgets == l.budgets && |l'.reservations| == |l.reservations|
            && |l'.facts| == |l.facts| + 1 && l'.facts[..|l.facts|] == l.facts
            && (forall k :: 0 <= k < |l.reservations| ==>
                  l'.reservations[k] == if HoldAt(l, key, k) && l.reservations[k].status == Held
                                        then l.reservations[k].(status := if req.status == NotSent then Released else Settled)
                                        else l.reservations[k])
            && Entered(l, key, req, card, l'.facts[|l.facts|])
  {
    hide PriceReport;
    var key := CallKey(p, req.fact);
    var h := FindHold(l.reservations, key);
    if h.Some? {
      LastHold(l, key, h.value);
      forall k | HoldAt(l, key, k) ensures k == h.value { FoundHold(l.reservations, key, k); }
    }
  }

  lemma {:induction false} LastHold(l: Ledger, key: CallKey, k: nat)
    requires FindHold(l.reservations, key) == Some(k)
    ensures HoldAt(l, key, k)
  {
    forall h | k < h < |l.reservations| ensures l.reservations[h].key != key { NoLaterHold(l.reservations, key, k, h); }
  }

  lemma {:induction false} NoLaterHold(rs: seq<Reservation>, key: CallKey, k: nat, h: nat)
    requires FindHold(rs, key) == Some(k) && k < h < |rs|
    ensures rs[h].key != key
  {
    if h < |rs| - 1 { NoLaterHold(rs[..|rs| - 1], key, k, h); }
  }

  /** A second record of a call with the same identity and funding: the same again,
      or less known than what is on file, changes nothing; a fact nobody recorded
      becomes anything, an unknown one a report, and a hold of a call that turns out
      never sent is released; everything else conflicts. */
  lemma RecordAgainAnswers(l: Ledger, p: Persona, req: RecordRequest, k: nat, card: Option<Card>)
    requires req.valid && req.status != Unrecorded && !BadTokens(req) && k < |l.facts| && l.facts[k].key == CallKey(p, req.fact)
    requires forall i :: 0 <= i < |l.facts| && i != k ==> l.facts[i].key != CallKey(p, req.fact)
    requires forall i :: HoldAt(l, CallKey(p, req.fact), i) ==> l.reservations[i].funding == req.funding
    requires l.facts[k].identity == req.identity && l.facts[k].funding == req.funding
    requires PricedBy(l, CallKey(p, req.fact), req.funding, card)
    ensures var r, f, key := Record(l, p, req), l.facts[k], CallKey(p, req.fact);
            var same := f.status == req.status && f.tokens == req.tokens;
            var less := f.status == Reported && req.status == Unknown
                        && (req.tokens.input.Some? ==> req.tokens.input == f.tokens.input)
                        && (req.tokens.output.Some? ==> req.tokens.output == f.tokens.output)
                        && (req.tokens.cached.Some? ==> req.tokens.cached == f.tokens.cached);
            var more := f.status == Unrecorded || (f.status == Unknown && req.status == Reported);
            && (same || less ==> r.ledger == l && r.reply == Ok && !r.resume)
            && (!same && !less && more ==>
                  && r.reply == Ok && r.resume && r.ledger.budgets == l.budgets
                  && |r.ledger.facts| == |l.facts| && Entered(l, key, req, card, r.ledger.facts[k])
                  && (forall i :: 0 <= i < |l.facts| && i != k ==> r.ledger.facts[i] == l.facts[i])
                  && |r.ledger.reservations| == |l.reservations|
                  && (forall i :: 0 <= i < |l.reservations| ==>
                        r.ledger.reservations[i] == if req.status == NotSent && HoldAt(l, key, i)
                                                    then l.reservations[i].(status := Released) else l.reservations[i]))
            && (!same && !less && !more ==> r.ledger == l && r.reply == Refused(409))
  {
    hide PriceReport;
    var key := CallKey(p, req.fact);
    FoundFact(l.facts, key, k);
    var h := FindHold(l.reservations, key);
    if h.Some? {
      LastHold(l, key, h.value);
      forall i | HoldAt(l, key, i) ensures i == h.value { FoundHold(l.reservations, key, i); }
    }
  }

  predicate Below(v: Option<int>) { v.Some? && v.value < 0 }

  /** A record is refused as malformed exactly when it is, when a count is negative,
      when a report lacks its input or output, or when one never sent has counts. */
  lemma RecordRefusedIff(l: Ledger, p: Persona, req: RecordRequest)
    ensures Record(l, p, req).reply == Refused(400) <==>
            || !req.valid || req.status == Unrecorded
            || Below(req.tokens.input) || Below(req.tokens.output) || Below(req.tokens.cached)
            || (req.status == Reported && (req.tokens.input.None? || req.tokens.output.None?))
            || (req.status == NotSent && (req.tokens.input.Some? || req.tokens.output.Some? || req.tokens.cached.Some?))
    ensures Record(l, p, req).reply == Refused(400) ==> Record(l, p, req).ledger == l
  {
    hide Priced, FindHold, FindFact;
  }

  /** A hold that was reconciled: settled, and with a fact of its call. */
  ghost predicate Reconciled(l: Ledger, l': Ledger, k: nat)
    requires k < |l.reservations|
  {
    var r := l.reservations[k];
    && k < |l'.reservations| && l'.reservations[k] == r.(status := Settled)
    && HasFact(l'.facts, r.key)
    && (!HasFact(l.facts, r.key) ==>
          exists i :: && |l.facts| <= i < |l'.facts| && l'.facts[i].key == r.key && l'.facts[i].status == Unrecorded
                      && l'.facts[i].funding == r.funding && l'.facts[i].identity == r.identity
                      && l'.facts[i].cost == if r.card.Some? then Some(r.reserved) else None)
  }

  lemma HoldReconciled(l: Ledger, k: nat)
    requires k < |l.reservations|
    ensures var l' := ReconcileHold(l, k);
            && Reconciled(l, l', k) && l.facts <= l'.facts && |l'.reservations| == |l.reservations|
            && (forall i :: 0 <= i < |l.reservations| && i != k ==> l'.reservations[i] == l.reservations[i])
            && (forall i :: |l.facts| <= i < |l'.facts| ==> l'.facts[i].key == l.reservations[k].key)
  {
    var r, l' := l.reservations[k], ReconcileHold(l, k);
    if FindFact(l.facts, r.key).None? { assert l'.facts[|l.facts|] == LostRecord(r); }
  }

  /** Which holds reconciling ends. */
  lemma {:induction false} ReconcileHolds(l: Ledger, sel: Selector, from: nat, k: nat)
    requires from <= |l.reservations| && k < |l.reservations|
    ensures var rs, r := Reconcile(l, sel, from).reservations, l.reservations[k];
            |rs| == |l.reservations| && rs[k] == if k >= from && Selects(sel, r) then r.(status := Settled) else r
    decreases |l.reservations| - from
  {
    hide ReconcileHold, FindFact, LostRecord;
    if from == |l.reservations| { return; }
    if !Selects(sel, l.reservations[from]) {
      ReconcileHolds(l, sel, from + 1, k);
      return;
    }
    HoldReconciled(l, from);
    ReconcileHolds(ReconcileHold(l, from), sel, from + 1, k);
  }

  /** Reconciling settles exactly the selected holds, each with a fact of its call: the
      one on file, or one that nobody recorded at the price it was held for. */
  lemma {:induction false} ReconcileAnswers(l: Ledger, sel: Selector, from: nat, k: nat)
    requires UniqueHolds(l.reservations) && from <= |l.reservations| && k < |l.reservations|
    ensures var l' := Reconcile(l, sel, from);
            && |l'.reservations| == |l.reservations| && l.facts <= l'.facts
            && (if k >= from && Selects(sel, l.reservations[k]) then Reconciled(l, l', k) else l'.reservations[k] == l.reservations[k])
    decreases |l.reservations| - from
  {
    hide ReconcileHold, FindFact, LostRecord;
    if from == |l.reservations| { return; }
    if !Selects(sel, l.reservations[from]) {
      ReconcileAnswers(l, sel, from + 1, k);
      return;
    }
    var l1 := ReconcileHold(l, from);
    HoldReconciled(l, from);
    assert UniqueHolds(l1.reservations) by {
      forall a, b | 0 <= a < b < |l1.reservations| ensures l1.reservations[a].key != l1.reservations[b].key {}
    }
    ReconcileAnswers(l1, sel, from + 1, k);
    var l' := Reconcile(l, sel, from);
    if k == from {
      ReconciledStays(l, l1, l', k);
    } else if k > from && Selects(sel, l.reservations[k]) {
      ReconciledSince(l, l1, l', k, from);
    }
  }

  lemma ReconciledStays(l: Ledger, l1: Ledger, l': Ledger, k: nat)
    requires k < |l.reservations| && Reconciled(l, l1, k) && l1.facts <= l'.facts
    requires k < |l'.reservations| && l'.reservations[k] == l1.reservations[k]
    ensures Reconciled(l, l', k)
  {
    var r := l.reservations[k];
    var f :| 0 <= f < |l1.facts| && l1.facts[f].key == r.key;
    assert l'.facts[f] == l1.facts[f];
    if !HasFact(l.facts, r.key) {
      var i :| && |l.facts| <= i < |l1.facts| && l1.facts[i].key == r.key && l1.facts[i].status == Unrecorded
               && l1.facts[i].funding == r.funding && l1.facts[i].identity == r.identity
               && l1.facts[i].cost == if r.card.Some? then Some(r.reserved) else None;
      assert l'.facts[i] == l1.facts[i];
    }
  }

  lemma ReconciledSince(l: Ledger, l1: Ledger, l': Ledger, k: nat, from: nat)
    requires k < |l.reservations| && from < k && UniqueHolds(l.reservations) && |l1.reservations| == |l.reservations|
    requires l1.reservations[k] == l.reservations[k] && Reconciled(l1, l', k) && l.facts <= l1.facts
    requires forall i :: |l.facts| <= i < |l1.facts| ==> l1.facts[i].key == l.reservations[from].key
    ensures Reconciled(l, l', k)
  {
    var r := l.reservations[k];
    assert l.reservations[from].key != r.key;
    if HasFact(l1.facts, r.key) {
      var f :| 0 <= f < |l1.facts| && l1.facts[f].key == r.key;
      assert f < |l.facts| && l.facts[f] == l1.facts[f];
    }
  }
}
