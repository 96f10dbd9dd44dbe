/** A panel of models answers a question: members that fail are replaced from the reserves, and the answers
    are ranked by how many of their claims hold. */
module Quorum {
  datatype Option<T> = None | Some(value: T)

  datatype Card = Card(model: string, answer: string, confidence: real, verified: nat, failed: nat, calibration: real)

  /** What a model does when asked: a card, or an error. */
  type Panelist = string -> Option<Card>

  function ProviderOf(model: string): string {
    if model == [] || model[0] == '/' then [] else [model[0]] + ProviderOf(model[1..])
  }

  ghost predicate Begins(provider: string, model: string) {
    '/' !in provider && (model == provider || exists name: string :: model == provider + "/" + name)
  }

  lemma BeginsIff(provider: string, model: string)
    ensures Begins(provider, model) <==>
      '/' !in provider && provider <= model && (|provider| < |model| ==> model[|provider|] == '/')
  {
    if '/' !in provider && provider < model && model[|provider|] == '/' {
      assert model == provider + "/" + model[|provider| + 1..];
    }
  }

  lemma {:induction false} ProviderBegins(model: string)
    ensures Begins(ProviderOf(model), model)
  {
    hide Begins;
    BeginsIff(ProviderOf(model), model);
    if model != [] && model[0] != '/' {
      ProviderBegins(model[1..]);
      BeginsIff(ProviderOf(model[1..]), model[1..]);
    }
  }

  lemma LongerHasSlash(p: string, q: string, model: string)
    requires p <= model && q <= model && (|p| < |model| ==> model[|p|] == '/')
    ensures |q| > |p| ==> '/' in q
  {
    if |q| > |p| {
      assert q[|p|] == '/';
    }
  }

  /** The provider is what comes before the first slash, or everything if there is none. */
  lemma ProviderOfIff(model: string, provider: string)
    ensures ProviderOf(model) == provider <==>
      '/' !in provider && (model == provider || exists name: string :: model == provider + "/" + name)
  {
    hide ProviderOf;
    var p := ProviderOf(model);
    ProviderBegins(model);
    BeginsIff(p, model);
    BeginsIff(provider, model);
    if Begins(provider, model) {
      LongerHasSlash(provider, p, model);
      LongerHasSlash(p, provider, model);
    }
  }

  // ---- gathering ----

  /** The cards of the models asked, in the order they were asked. */
  function CardsOf(asked: seq<string>, ask: Panelist): (cards: seq<Card>)
    ensures |cards| <= |asked|
  {
    if asked == [] then []
    else
      var m := asked[|asked| - 1];
      CardsOf(asked[..|asked| - 1], ask) + if ask(m).Some? then [ask(m).value] else []
  }

  function FailedOf(asked: seq<string>, ask: Panelist): set<string> {
    set m | m in asked && ask(m).None? :: ProviderOf(m)
  }

  lemma OneMoreAsked(asked: seq<string>, m: string, ask: Panelist)
    ensures CardsOf(asked + [m], ask) == CardsOf(asked, ask) + if ask(m).Some? then [ask(m).value] else []
    ensures FailedOf(asked + [m], ask) == FailedOf(asked, ask) + if ask(m).None? then {ProviderOf(m)} else {}
  {
    assert (asked + [m])[..|asked|] == asked;
    assert forall x :: x in asked + [m] <==> x in asked || x == m;
  }

  predicate Usable(model: string, failedProviders: set<string>) {
    ProviderOf(model) !in failedProviders
  }

  /** No reserve could stand in. */
  predicate Spent(reserves: seq<string>, failedProviders: set<string>) {
    forall m :: m in reserves ==> !Usable(m, failedProviders)
  }

  /** The replacement for a failed member: the first reserve whose provider neither failed nor is already
      represented, else the first whose provider has not failed. */
  method Pick(reserves: seq<string>, failedProviders: set<string>, inUse: set<string>) returns (pick: int)
    ensures -1 <= pick < |reserves|
    ensures pick < 0 <==> Spent(reserves, failedProviders)
    ensures pick < 0 <==> forall k :: 0 <= k < |reserves| ==> ProviderOf(reserves[k]) in failedProviders
    ensures pick >= 0 ==> ProviderOf(reserves[pick]) !in failedProviders
    ensures pick >= 0 && ProviderOf(reserves[pick]) !in inUse ==>
      forall k :: 0 <= k < pick && ProviderOf(reserves[k]) !in failedProviders ==> ProviderOf(reserves[k]) in inUse
    ensures pick >= 0 && ProviderOf(reserves[pick]) in inUse ==>
      && (forall k :: 0 <= k < pick ==> ProviderOf(reserves[k]) in failedProviders)
      && forall k :: 0 <= k < |reserves| && ProviderOf(reserves[k]) !in failedProviders ==> ProviderOf(reserves[k]) in inUse
  {
    pick := -1;
    for i := 0 to |reserves|
      invariant -1 <= pick < i
      invariant pick >= 0 ==> Usable(reserves[pick], failedProviders) && ProviderOf(reserves[pick]) in inUse
      invariant forall k :: 0 <= k < (if pick >= 0 then pick else i) ==> !Usable(reserves[k], failedProviders)
      invariant forall k :: 0 <= k < i && Usable(reserves[k], failedProviders) ==> ProviderOf(reserves[k]) in inUse
    {
      if Usable(reserves[i], failedProviders) {
        if ProviderOf(reserves[i]) !in inUse {
          assert reserves[i] in reserves;
          return i;
        }
        if pick < 0 {
          pick := i;
        }
      }
    }
    assert pick >= 0 ==> reserves[pick] in reserves;
  }

  function Removed(models: seq<string>, i: nat): (r: seq<string>)
    requires i < |models|
    ensures |r| == |models| - 1 && multiset(r) + multiset{models[i]} == multiset(models)
    ensures forall m :: m in r ==> m in models
  {
    assert models == models[..i] + [models[i]] + models[i + 1..];
    models[..i] + models[i + 1..]
  }

  function Providers(models: seq<string>): set<string> {
    set m | m in models :: ProviderOf(m)
  }

  function CardProviders(cards: seq<Card>): set<string> {
    set c | c in cards :: ProviderOf(c.model)
  }

  /** Asks one model; if it fails, its replacement, if there is one, joins the next batch. */
  method AskOne(model: string, ask: Panelist, cards: seq<Card>, failedProviders: set<string>, reserves: seq<string>, next: seq<string>)
      returns (cards': seq<Card>, failedProviders': set<string>, reserves': seq<string>, next': seq<string>)
    ensures cards' == cards + if ask(model).Some? then [ask(model).value] else []
    ensures failedProviders' == failedProviders + if ask(model).None? then {ProviderOf(model)} else {}
    ensures multiset(reserves') + multiset(next') == multiset(reserves) + multiset(next)
    ensures |reserves'| + |next'| == |reserves| + |next| && |next| <= |next'|
    ensures |cards'| + |next'| <= |cards| + |next| + 1
    ensures |cards'| + |next'| < |cards| + |next| + 1 ==> Spent(reserves', failedProviders')
    ensures Spent(reserves, failedProviders) ==> Spent(reserves', failedProviders')
  {
    cards', failedProviders', reserves', next' := cards, failedProviders, reserves, next;
    var card := ask(model);
    if card.Some? {
      cards' := cards + [card.value];
      return;
    }
    failedProviders' := failedProviders + {ProviderOf(model)};
    var pick := Pick(reserves, failedProviders', CardProviders(cards) + Providers(next));
    if pick >= 0 {
      reserves' := Removed(reserves, pick);
      next' := next + [reserves[pick]];
    }
  }

  /** Where gathering stands: who was asked and what came of it, who is still to be asked, who is left. */
  datatype Standing = Standing(asked: seq<string>, cards: seq<Card>, failedProviders: set<string>, waiting: seq<string>, left: seq<string>)

  /** The cards are those of the models asked; nobody got lost or was listed twice; and a seat is only
      empty if no reserve could take it. */
  ghost predicate Accounted(s: Standing, panel: seq<string>, reserves: seq<string>, ask: Panelist) {
    && s.cards == CardsOf(s.asked, ask) && s.failedProviders == FailedOf(s.asked, ask)
    && multiset(s.asked) + multiset(s.waiting) + multiset(s.left) == multiset(panel) + multiset(reserves)
    && |s.cards| + |s.waiting| <= |panel|
    && (|s.cards| + |s.waiting| < |panel| ==> Spent(s.left, s.failedProviders))
  }

  lemma AskedOne(s: Standing, s': Standing, rest: seq<string>, next: seq<string>, next': seq<string>,
                 panel: seq<string>, reserves: seq<string>, ask: Panelist, model: string)
    requires Accounted(s, panel, reserves, ask) && s.waiting == [model] + rest + next
    requires s'.waiting == rest + next' && s'.asked == s.asked + [model]
    requires s'.cards == s.cards + if ask(model).Some? then [ask(model).value] else []
    requires s'.failedProviders == s.failedProviders + if ask(model).None? then {ProviderOf(model)} else {}
    requires multiset(s'.left) + multiset(next') == multiset(s.left) + multiset(next)
    requires |s'.cards| + |next'| <= |s.cards| + |next| + 1
    requires |s'.cards| + |next'| < |s.cards| + |next| + 1 ==> Spent(s'.left, s'.failedProviders)
    requires Spent(s.left, s.failedProviders) ==> Spent(s'.left, s'.failedProviders)
    ensures Accounted(s', panel, reserves, ask)
  {
    hide Spent, CardsOf, FailedOf, ProviderOf;
    OneMoreAsked(s.asked, model, ask);
    assert multiset(s.waiting) == multiset{model} + multiset(rest) + multiset(next);
    assert multiset(s'.waiting) == multiset(rest) + multiset(next');
    assert multiset(s'.asked) == multiset(s.asked) + multiset{model};
    assert multiset(s'.asked) + multiset(s'.waiting) + multiset(s'.left)
        == multiset(s.asked) + multiset{model} + multiset(rest) + (multiset(s'.left) + multiset(next'));
    assert multiset(s.asked) + multiset(s.waiting) + multiset(s.left)
        == multiset(s.asked) + multiset{model} + multiset(rest) + (multiset(s.left) + multiset(next));
    assert |s.waiting| == 1 + |rest| + |next| && |s'.waiting| == |rest| + |next'|;
  }

  /** Asks everyone in a batch; `next` is the batch of their replacements. */
  method AskBatch(batch: seq<string>, ask: Panelist, ghost panel: seq<string>, ghost reserves: seq<string>, s0: Standing)
      returns (s: Standing)
    requires s0.waiting == batch && Accounted(s0, panel, reserves, ask)
    ensures Accounted(s, panel, reserves, ask)
    ensures s.asked == s0.asked + batch && |s.left| + |s.waiting| == |s0.left|
  {
    hide Accounted, Spent, CardsOf, FailedOf;
    var next: seq<string> := [];
    s := s0;
    for i := 0 to |batch|
      invariant s.waiting == batch[i..] + next && Accounted(s, panel, reserves, ask)
      invariant s.asked == s0.asked + batch[..i] && |s.left| + |next| == |s0.left|
    {
      assert batch[i..] == [batch[i]] + batch[i + 1..] && batch[..i + 1] == batch[..i] + [batch[i]];
      var cards, failedProviders, left, more := AskOne(batch[i], ask, s.cards, s.failedProviders, s.left, next);
      var s' := Standing(s.asked + [batch[i]], cards, failedProviders, batch[i + 1..] + more, left);
      AskedOne(s, s', batch[i + 1..], next, more, panel, reserves, ask, batch[i]);
      s, next := s', more;
    }
    assert batch[..|batch|] == batch && batch[|batch|..] + next == next;
  }

  /** The panel is asked in batches: first the whole panel, then the replacements of those that failed, until
      nobody is left to ask. No model is asked more often than it is listed; there are at most as many
      cards as seats, and fewer only once every unused reserve belongs to a provider that failed. */
  method GatherCards(panel: seq<string>, reserves: seq<string>, ask: Panelist) returns (cards: seq<Card>, asked: seq<string>, left: seq<string>)
    ensures cards == CardsOf(asked, ask) && panel <= asked
    ensures multiset(asked) + multiset(left) == multiset(panel) + multiset(reserves)
    ensures |cards| <= |panel|
    ensures |cards| < |panel| ==> forall m :: m in left ==> exists a :: a in asked && ask(a) == None && ProviderOf(a) == ProviderOf(m)
  {
    hide Spent, CardsOf, FailedOf;
    NobodyAsked(ask);
    var s := Standing([], [], {}, panel, reserves);
    while s.waiting != []
      invariant Accounted(s, panel, reserves, ask) && panel <= s.asked + s.waiting
      invariant s.asked == [] || panel <= s.asked
      decreases |s.left| + |s.waiting|
    {
      s := AskBatch(s.waiting, ask, panel, reserves, s);
    }
    assert s.asked + s.waiting == s.asked;
    SpentMeans(s.left, s.asked, ask);
    return s.cards, s.asked, s.left;
  }

  lemma SpentMeans(left: seq<string>, asked: seq<string>, ask: Panelist)
    ensures Spent(left, FailedOf(asked, ask)) <==>
      forall m :: m in left ==> exists a :: a in asked && ask(a) == None && ProviderOf(a) == ProviderOf(m)
  {
    forall m ensures !Usable(m, FailedOf(asked, ask)) <==> exists a :: a in asked && ask(a) == None && ProviderOf(a) == ProviderOf(m) {
    }
  }

  lemma {:induction false} CardsConcat(a: seq<string>, b: seq<string>, ask: Panelist)
    ensures CardsOf(a + b, ask) == CardsOf(a, ask) + CardsOf(b, ask)
  {
    hide CardsOf;
    if b == [] {
      NobodyAsked(ask);
      assert a + b == a && CardsOf(a, ask) + [] == CardsOf(a, ask);
    } else {
      var init, last := b[..|b| - 1], b[|b| - 1];
      CardsConcat(a, init, ask);
      OneMoreAsked(a + init, last, ask);
      OneMoreAsked(init, last, ask);
      assert a + b == a + init + [last] && b == init + [last];
    }
  }

  /** The cards are what was answered: in a row of models asked, each adds its card in its place if it gave one. */
  lemma CardsInOrder(before: seq<string>, m: string, after: seq<string>, ask: Panelist)
    ensures CardsOf(before + [m] + after, ask)
      == CardsOf(before, ask) + (match ask(m) { case None => [] case Some(card) => [card] }) + CardsOf(after, ask)
  {
    hide CardsOf;
    CardsConcat(before + [m], after, ask);
    OneMoreAsked(before, m, ask);
  }

  lemma NobodyAsked(ask: Panelist)
    ensures CardsOf([], ask) == [] && FailedOf([], ask) == {}
  {
  }

  predicate Distinct(models: seq<string>) {
    forall i, j :: 0 <= i < j < |models| ==> models[i] != models[j]
  }

  lemma {:induction false} DistinctIffCounts(models: seq<string>)
    ensures Distinct(models) <==> forall m :: multiset(models)[m] <= 1
  {
    if models != [] {
      var init, last := models[..|models| - 1], models[|models| - 1];
      assert models == init + [last];
      DistinctIffCounts(init);
      assert last in init <==> multiset(init)[last] > 0;
      if Distinct(models) {
        assert last !in init;
      }
      if forall m :: multiset(models)[m] <= 1 {
        assert multiset(models)[last] == multiset(init)[last] + 1;
        assert forall m :: multiset(init)[m] <= multiset(models)[m];
      }
    }
  }

  /** If no model is listed twice, none is asked twice, and none that is asked is still in reserve. */
  lemma AskedAtMostOnce(panel: seq<string>, reserves: seq<string>, asked: seq<string>, left: seq<string>)
    requires Distinct(panel + reserves) && multiset(asked) + multiset(left) == multiset(panel) + multiset(reserves)
    ensures Distinct(asked + left)
  {
    DistinctIffCounts(panel + reserves);
    DistinctIffCounts(asked + left);
    assert multiset(asked + left) == multiset(panel + reserves);
  }

  // ---- ranking ----

  /** Verified minus failed claims first, then confidence discounted by the model's track record. */
  datatype Score = Score(net: int, weight: real) {
    predicate Beats(o: Score) { net > o.net || (net == o.net && weight > o.weight) }
  }

  function ScoreOf(c: Card): Score {
    Score(c.verified - c.failed, c.confidence * c.calibration)
  }

  predicate IsTop(cards: seq<Card>, c: Card) {
    forall d :: d in cards ==> !ScoreOf(d).Beats(ScoreOf(c))
  }

  function TopOf(cards: seq<Card>, all: seq<Card>): seq<Card> {
    if cards == [] then []
    else TopOf(cards[..|cards| - 1], all) + if IsTop(all, cards[|cards| - 1]) then [cards[|cards| - 1]] else []
  }

  /** The cards no other card beats, in the order given. */
  function Best(cards: seq<Card>): seq<Card> {
    TopOf(cards, cards)
  }

  lemma {:induction false} TopOfElements(cards: seq<Card>, all: seq<Card>)
    ensures forall c :: c in TopOf(cards, all) <==> c in cards && IsTop(all, c)
  {
    if cards != [] {
      assert cards == cards[..|cards| - 1] + [cards[|cards| - 1]];
      TopOfElements(cards[..|cards| - 1], all);
    }
  }

  lemma BeatsIff(d: Card, c: Card)
    ensures !ScoreOf(d).Beats(ScoreOf(c)) <==>
      && d.verified - d.failed <= c.verified - c.failed
      && (d.verified - d.failed == c.verified - c.failed ==> d.confidence * d.calibration <= c.confidence * c.calibration)
  {
  }

  /** A card is among the best exactly if none has more verified claims left after deducting the failed ones,
      and none with as many has the greater confidence times calibration. */
  lemma BestIff(cards: seq<Card>, c: Card)
    ensures c in Best(cards) <==> c in cards && forall d :: d in cards ==>
      && d.verified - d.failed <= c.verified - c.failed
      && (d.verified - d.failed == c.verified - c.failed ==> d.confidence * d.calibration <= c.confidence * c.calibration)
  {
    TopOfElements(cards, cards);
    hide TopOf, ScoreOf;
    forall d: Card
      ensures !ScoreOf(d).Beats(ScoreOf(c)) <==>
        && d.verified - d.failed <= c.verified - c.failed
        && (d.verified - d.failed == c.verified - c.failed ==> d.confidence * d.calibration <= c.confidence * c.calibration)
    {
      BeatsIff(d, c);
    }
  }

  /** However sure of itself, a card is never among the best next to one with more verified claims and no more
      failed ones, or with as many verified claims and fewer failed ones. */
  lemma ClaimsComeFirst(cards: seq<Card>, c: Card, d: Card)
    requires c in cards && c.verified >= d.verified && c.failed <= d.failed && (c.verified, c.failed) != (d.verified, d.failed)
    ensures d !in Best(cards)
  {
    BestIff(cards, d);
    hide Best;
  }

  /** The best cards stand in the order given. */
  lemma {:induction false} BestInOrder(cards: seq<Card>, all: seq<Card>, i: nat) returns (before: seq<Card>, after: seq<Card>)
    requires i < |cards| && forall c :: c in cards ==> c in all
    ensures TopOf(cards, all) == before + (if cards[i] in Best(all) then [cards[i]] else []) + after
    ensures (forall c :: c in before ==> c in cards[..i]) && (forall c :: c in after ==> c in cards[i + 1..])
  {
    var last := cards[|cards| - 1];
    TopOfElements(all, all);
    if i == |cards| - 1 {
      before, after := TopOf(cards[..i], all), [];
      TopOfElements(cards[..i], all);
      assert forall u: seq<Card> :: u + [] == u;
    } else {
      hide TopOf, Best;
      TopOfEnd(cards, all);
      before, after := BestInOrder(cards[..|cards| - 1], all, i);
      after := after + if IsTop(all, last) then [last] else [];
    }
  }

  lemma TopOfEnd(cards: seq<Card>, all: seq<Card>)
    requires cards != []
    ensures var last := cards[|cards| - 1];
      TopOf(cards, all) == TopOf(cards[..|cards| - 1], all) + if IsTop(all, last) then [last] else []
  {
  }

  /** Sorts by descending score, keeping equal cards in order, and takes the leading run of equals. */
  method Rank(cards: seq<Card>) returns (best: seq<Card>)
    ensures best == Best(cards)
    ensures forall c :: c in best <==> c in cards && forall d :: d in cards ==>
      && d.verified - d.failed <= c.verified - c.failed
      && (d.verified - d.failed == c.verified - c.failed ==> d.confidence * d.calibration <= c.confidence * c.calibration)
  {
    forall c: Card ensures c in Best(cards) <==> c in cards && forall d :: d in cards ==>
      && d.verified - d.failed <= c.verified - c.failed
      && (d.verified - d.failed == c.verified - c.failed ==> d.confidence * d.calibration <= c.confidence * c.calibration)
    {
      BestIff(cards, c);
    }
    if cards == [] { return []; }
    var ranked := SortedByScore(cards);
    SameElements(cards, ranked);
    var top := ScoreOf(ranked[0]);
    best := [];
    for i := 0 to |ranked|
      invariant best == WithScore(ranked[..i], top)
    {
      assert ranked[..i + 1][..i] == ranked[..i];
      if ScoreOf(ranked[i]) == top {
        best := best + [ranked[i]];
      }
    }
    assert ranked[..|ranked|] == ranked;
    TopIsWithScore(cards, cards, top);
  }

  function WithScore(cards: seq<Card>, s: Score): seq<Card> {
    if cards == [] then []
    else WithScore(cards[..|cards| - 1], s) + if ScoreOf(cards[|cards| - 1]) == s then [cards[|cards| - 1]] else []
  }

  predicate Descending(cards: seq<Card>) {
    forall i, j :: 0 <= i < j < |cards| ==> !ScoreOf(cards[j]).Beats(ScoreOf(cards[i]))
  }

  lemma {:induction false} WithScoreConcat(a: seq<Card>, b: seq<Card>, s: Score)
    ensures WithScore(a + b, s) == WithScore(a, s) + WithScore(b, s)
  {
    if b == [] {
      assert a + b == a && WithScore(a, s) + [] == WithScore(a, s);
    } else {
      assert (a + b)[..|a + b| - 1] == a + b[..|b| - 1];
      WithScoreConcat(a, b[..|b| - 1], s);
    }
  }

  lemma {:induction false} WithoutScore(cards: seq<Card>, s: Score)
    requires forall i :: 0 <= i < |cards| ==> ScoreOf(cards[i]) != s
    ensures WithScore(cards, s) == []
  {
    if cards != [] {
      WithoutScore(cards[..|cards| - 1], s);
    }
  }

  /** A stable insertion sort, standing for the library's stable sort. */
  method SortedByScore(cards: seq<Card>) returns (ranked: seq<Card>)
    ensures Descending(ranked) && multiset(ranked) == multiset(cards)
    ensures forall s :: WithScore(ranked, s) == WithScore(cards, s)
  {
    hide ScoreOf;
    ranked := [];
    for i := 0 to |cards|
      invariant Descending(ranked) && multiset(ranked) == multiset(cards[..i])
      invariant forall s :: WithScore(ranked, s) == WithScore(cards[..i], s)
    {
      assert cards[..i + 1] == cards[..i] + [cards[i]] && cards[..i + 1][..i] == cards[..i];
      ranked := Inserted(ranked, cards[i]);
    }
    assert cards[..|cards|] == cards;
  }

  method Inserted(ranked: seq<Card>, c: Card) returns (r: seq<Card>)
    requires Descending(ranked)
    ensures Descending(r) && multiset(r) == multiset(ranked) + multiset{c}
    ensures forall s :: WithScore(r, s) == WithScore(ranked, s) + if ScoreOf(c) == s then [c] else []
  {
    hide ScoreOf, WithScore, Descending;
    var at := |ranked|;
    while at > 0 && ScoreOf(c).Beats(ScoreOf(ranked[at - 1]))
      invariant 0 <= at <= |ranked|
      invariant forall k :: at <= k < |ranked| ==> ScoreOf(c).Beats(ScoreOf(ranked[k]))
    {
      at := at - 1;
    }
    r := ranked[..at] + [c] + ranked[at..];
    assert multiset(ranked) == multiset(ranked[..at] + ranked[at..]) by { assert ranked == ranked[..at] + ranked[at..]; }
    forall s ensures WithScore(r, s) == WithScore(ranked, s) + if ScoreOf(c) == s then [c] else [] {
      InsertedScores(ranked, at, c, s);
    }
    InsertedDescends(ranked, at, c);
  }

  lemma InsertedScores(ranked: seq<Card>, at: nat, c: Card, s: Score)
    requires at <= |ranked| && forall k :: at <= k < |ranked| ==> ScoreOf(c).Beats(ScoreOf(ranked[k]))
    ensures WithScore(ranked[..at] + [c] + ranked[at..], s) == WithScore(ranked, s) + if ScoreOf(c) == s then [c] else []
  {
    var a, b := ranked[..at], ranked[at..];
    assert ranked == a + b;
    WithScoreConcat(a, b, s);
    WithScoreConcat(a, [c], s);
    WithScoreConcat(a + [c], b, s);
    assert [c][..0] == [];
    if ScoreOf(c) == s {
      WithoutScore(b, s);
    } else {
      assert WithScore([c], s) == [];
    }
  }

  lemma InsertedDescends(ranked: seq<Card>, at: nat, c: Card)
    requires Descending(ranked) && at <= |ranked| && forall k :: at <= k < |ranked| ==> ScoreOf(c).Beats(ScoreOf(ranked[k]))
    requires at > 0 ==> !ScoreOf(c).Beats(ScoreOf(ranked[at - 1]))
    ensures Descending(ranked[..at] + [c] + ranked[at..])
  {
    hide ScoreOf;
    var r := ranked[..at] + [c] + ranked[at..];
    forall i, j | 0 <= i < j < |r| ensures !ScoreOf(r[j]).Beats(ScoreOf(r[i])) {
      assert i < at ==> r[i] == ranked[i];
      assert i > at ==> r[i] == ranked[i - 1];
      assert j < at ==> r[j] == ranked[j];
      assert j > at ==> r[j] == ranked[j - 1];
      if j == at && i < at - 1 {
        assert !ScoreOf(ranked[at - 1]).Beats(ScoreOf(ranked[i]));
      }
    }
  }

  lemma SameElements(cards: seq<Card>, ranked: seq<Card>)
    requires cards != [] && Descending(ranked) && multiset(ranked) == multiset(cards)
    ensures ranked != [] && IsTop(cards, ranked[0]) && ranked[0] in cards
  {
    assert |ranked| == |multiset(ranked)| == |cards|;
    assert ranked[0] in multiset(ranked);
    forall d | d in cards ensures !ScoreOf(d).Beats(ScoreOf(ranked[0])) {
      assert d in multiset(cards) && d in multiset(ranked);
      var k :| 0 <= k < |ranked| && ranked[k] == d;
    }
  }

  lemma {:induction false} TopIsWithScore(cards: seq<Card>, all: seq<Card>, top: Score)
    requires exists t :: t in all && IsTop(all, t) && ScoreOf(t) == top
    requires forall c :: c in cards ==> c in all
    ensures TopOf(cards, all) == WithScore(cards, top)
  {
    if cards != [] {
      var last := cards[|cards| - 1];
      TopIsWithScore(cards[..|cards| - 1], all, top);
      var t :| t in all && IsTop(all, t) && ScoreOf(t) == top;
      assert last in all && !ScoreOf(last).Beats(top);
      assert IsTop(all, last) <==> ScoreOf(last) == top;
    }
  }

  // ---- the verdict ----

  function Answers(cards: seq<Card>): set<string> {
    set c | c in cards :: c.answer
  }

  /** The answer all best cards agree on, if they do. */
  function Verdict(cards: seq<Card>): Option<string> {
    if |Answers(Best(cards))| == 1 then Some(Best(cards)[0].answer) else None
  }

  lemma SameBest(a: seq<Card>, b: seq<Card>)
    requires multiset(a) == multiset(b)
    ensures forall c :: c in Best(a) <==> c in Best(b)
  {
    TopOfElements(a, a);
    TopOfElements(b, b);
    assert forall c :: c in a <==> c in multiset(a);
    assert forall c :: c in b <==> c in multiset(b);
  }

  /** What is answered, and whether it counts as resolved, does not depend on the order of the cards. */
  lemma VerdictIgnoresOrder(a: seq<Card>, b: seq<Card>)
    requires multiset(a) == multiset(b)
    ensures Verdict(a) == Verdict(b)
  {
    SameBest(a, b);
    hide Best;
    assert Answers(Best(a)) == Answers(Best(b));
    if |Answers(Best(a))| == 1 {
      var x, y := Best(a)[0], Best(b)[0];
      assert x.answer in Answers(Best(a)) && y.answer in Answers(Best(b));
      OnlyOne(Answers(Best(a)), x.answer, y.answer);
    }
  }

  lemma OnlyOne(s: set<string>, x: string, y: string)
    requires |s| == 1 && x in s && y in s
    ensures x == y
  {
    if x != y {
      assert {x, y} <= s;
      Fits({x, y}, s);
    }
  }

  lemma Fits(small: set<string>, s: set<string>)
    requires small <= s
    ensures |small| <= |s|
  {
    if small != {} {
      var x :| x in small;
      Fits(small - {x}, s - {x});
    }
  }

  /** An answer wins exactly when some card gives it and every card that no other beats gives it. */
  lemma VerdictMeans(cards: seq<Card>, answer: string)
    ensures Verdict(cards) == Some(answer) <==>
      cards != [] && forall c :: c in cards && IsTop(cards, c) ==> c.answer == answer
  {
    TopOfElements(cards, cards);
    var answers := Answers(Best(cards));
    if Verdict(cards) == Some(answer) {
      forall c | c in cards && IsTop(cards, c) ensures c.answer == answer {
        assert c in Best(cards) && Best(cards)[0] in Best(cards);
        OnlyOne(answers, c.answer, answer);
      }
    }
    if cards != [] && forall c :: c in cards && IsTop(cards, c) ==> c.answer == answer {
      SomeCardIsTop(cards);
      assert forall x :: x in answers ==> x == answer;
      assert answers == {answer};
    }
  }

  lemma {:induction false} SomeCardIsTop(cards: seq<Card>)
    requires cards != []
    ensures exists c :: c in cards && IsTop(cards, c)
  {
    hide ScoreOf;
    if |cards| == 1 {
      assert IsTop(cards, cards[0]);
    } else {
      var init, last := cards[..|cards| - 1], cards[|cards| - 1];
      assert cards == init + [last];
      SomeCardIsTop(init);
      var t :| t in init && IsTop(init, t);
      if ScoreOf(last).Beats(ScoreOf(t)) {
        assert IsTop(cards, last);
      } else {
        assert IsTop(cards, t);
      }
    }
  }

  /** Whose answer is given, and whose confidence is reported with it: the first of the best cards. */
  function Winner(cards: seq<Card>): Option<Card> {
    if Verdict(cards).Some? then Some(Best(cards)[0]) else None
  }

  lemma {:induction false} LeadingTop(cards: seq<Card>, all: seq<Card>)
    requires cards != [] && IsTop(all, cards[0])
    ensures TopOf(cards, all) != [] && TopOf(cards, all)[0] == cards[0]
  {
    if |cards| > 1 {
      LeadingTop(cards[..|cards| - 1], all);
    }
  }

  /** Any of the best cards comes first in some order of the cards. */
  lemma AnyCardCanLead(cards: seq<Card>, c: Card) returns (other: seq<Card>)
    requires c in Best(cards)
    ensures multiset(other) == multiset(cards) && Best(other) != [] && Best(other)[0] == c
  {
    TopOfElements(cards, cards);
    var i :| 0 <= i < |cards| && cards[i] == c;
    other := [c] + cards[..i] + cards[i + 1..];
    assert cards == cards[..i] + [c] + cards[i + 1..];
    SameBest(cards, other);
    TopOfElements(other, other);
    LeadingTop(other, other);
  }

  ghost predicate ReportedInAnyOrder(cards: seq<Card>, confidence: real) {
    forall other: seq<Card> :: multiset(other) == multiset(cards) ==> Winner(other).Some? && Winner(other).value.confidence == confidence
  }

  /** The confidence reported with it does: it is the same in every order of the cards if and only if all of
      the best cards are equally confident. */
  lemma ConfidenceDependsOnOrder(cards: seq<Card>)
    requires Verdict(cards).Some?
    ensures ReportedInAnyOrder(cards, Winner(cards).value.confidence) <==>
      forall a, b :: a in Best(cards) && b in Best(cards) ==> a.confidence == b.confidence
  {
    hide Best;
    var first := Best(cards)[0];
    forall c | c in Best(cards) && ReportedInAnyOrder(cards, first.confidence) ensures c.confidence == first.confidence {
      var other := AnyCardCanLead(cards, c);
      VerdictIgnoresOrder(cards, other);
      assert Winner(other).value == c;
    }
    forall other: seq<Card> | multiset(other) == multiset(cards)
      ensures Winner(other).Some? && Winner(other).value in Best(cards)
    {
      VerdictIgnoresOrder(cards, other);
      SameBest(cards, other);
      assert Best(other)[0] in Best(other);
    }
    assert first in Best(cards);
  }

  /** A whole run. `debate` is what the cards become when the best of them disagree. */
  method Run(panel: seq<string>, reserves: seq<string>, ask: Panelist, debate: seq<Card> -> seq<Card>)
      returns (cards: seq<Card>, winner: Option<Card>, debated: bool)
    ensures |cards| > 0 || winner.None?
    ensures debated ==> exists first :: |Answers(Best(first))| > 1 && |first| <= |panel| && cards == debate(first)
    ensures !debated ==> |cards| <= |panel| && |Answers(Best(cards))| <= 1
    ensures winner == Winner(cards) && (winner.Some? ==> winner.value in cards && IsTop(cards, winner.value))
  {
    debated, winner := false, None;
    var asked, left;
    cards, asked, left := GatherCards(panel, reserves, ask);
    if cards == [] {
      assert Best(cards) == [] && Answers([]) == {};
      return;
    }
    var best := Rank(cards);
    if |best| > 1 && |Answers(best)| > 1 {
      debated := true;
      ghost var first := cards;
      cards := debate(cards);
      best := Rank(cards);
      assert |Answers(Best(first))| > 1 && cards == debate(first);
    }
    FewAnswers(best);
    TopOfElements(cards, cards);
    if |Answers(best)| == 1 {
      winner := Some(best[0]);
    }
  }

  lemma FewAnswers(cards: seq<Card>)
    ensures |cards| <= 1 ==> |Answers(cards)| <= 1
  {
    if |cards| == 1 {
      assert Answers(cards) == {cards[0].answer};
    } else if cards == [] {
      assert Answers(cards) == {};
    }
  }
}
