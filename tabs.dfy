/** The tab callback: given the selected tab and the user identifier typed
    into the input box, decide what the content pane shows.

    The rendered component trees are reduced to a `View` value carrying the
    numbers each tab displays; styling and the two-decimal rounding of the
    displayed scores are not modelled. */
module Tabs {
  import opened Records
  import opened Scoring

  datatype View =
    | Prompt                  // no user identifier entered yet
    | UserNotFound            // the home tab found no user row
    | Home(user: UserInfo)
    | PaymentTab(onTime: int, total: int, score: real)
    | DebtTab(used: real, limit: real, score: real)
    | HistoryTab(accountStart: Date, age: int, score: real)
    | MixTab(typesUsed: int, totalTypes: int, score: real)
    | FinalScore(components: ScoreComponents)
    | InvalidTab

  /** The tab values the tab bar offers. */
  const KnownTabs: set<string> := {"home", "payment", "debt", "history", "mix", "score"}

  /** An identifier that is absent or zero does not pass the `if not user_id` test. */
  predicate IsFalsy(userId: Option<int>): (falsy: bool)
    ensures falsy <==> userId == None || userId == Some(0)
  {
    userId.None? || userId.value == 0
  }

  /** The rows the chosen tab indexes without checking for their absence
      exist: the callback cannot proceed otherwise. The home tab checks its
      row, and the prompt and an unknown tab read nothing. */
  predicate RowsAvailable(tab: string, userId: Option<int>, store: Store) {
    IsFalsy(userId) ||
    var id := userId.value;
    (tab == "payment" ==> id in store.payments) &&
    (tab == "debt" ==> id in store.debts) &&
    (tab == "history" ==> id in store.histories) &&
    (tab == "mix" ==> id in store.mixes) &&
    (tab == "score" ==> HasScoringRows(store, id))
  }

  /** `render_tab(tab, user_id)`. */
  function RenderTab(tab: string, userId: Option<int>, store: Store, currentYear: int): (v: View)
    requires RowsAvailable(tab, userId, store)
    ensures v == Prompt <==> IsFalsy(userId)
    ensures v == InvalidTab <==> !IsFalsy(userId) && tab !in KnownTabs
    ensures v == UserNotFound <==> !IsFalsy(userId) && tab == "home" && userId.value !in store.users
    ensures v.Home? ==> tab == "home" && userId.value in store.users && v.user == store.users[userId.value]
    ensures (!IsFalsy(userId) && tab == "home" && userId.value in store.users)
              ==> v == Home(store.users[userId.value])
    ensures (!IsFalsy(userId) && tab == "payment")
              ==> v.PaymentTab? && v.onTime == store.payments[userId.value].onTime
                  && v.total == store.payments[userId.value].total
    ensures (!IsFalsy(userId) && tab == "debt")
              ==> v.DebtTab? && v.used == store.debts[userId.value].used
                  && v.limit == store.debts[userId.value].limit
    ensures (!IsFalsy(userId) && tab == "history")
              ==> v.HistoryTab? && v.accountStart == store.histories[userId.value].accountStart
    ensures (!IsFalsy(userId) && tab == "mix")
              ==> v.MixTab? && v.typesUsed == store.mixes[userId.value].typesUsed
                  && v.totalTypes == store.mixes[userId.value].totalTypes
    ensures (!IsFalsy(userId) && tab == "score")
              ==> v == FinalScore(CalculateScoreComponents(store, userId.value, currentYear))
    ensures v.PaymentTab? ==> v.score == PaymentScore(PaymentRecord(v.onTime, v.total))
    ensures v.DebtTab? ==> v.score == DebtScore(DebtRecord(v.used, v.limit))
    ensures v.HistoryTab? ==> v.age == currentYear - v.accountStart.year && v.score == 10.0 * (v.age as real)
    ensures v.MixTab? ==> v.score == MixScore(MixRecord(v.typesUsed, v.totalTypes))
    ensures v.FinalScore? ==> v.components.scaled == Scaled(RawScore(v.components.payment,
              v.components.debt, v.components.history, v.components.mix))
  {
    if IsFalsy(userId) then
      Prompt
    else
      var id := userId.value;
      if tab == "home" then
        match Fetch(store.users, id)
        case None => UserNotFound
        case Some(user) => Home(user)
      else if tab == "payment" then
        var p := store.payments[id];
        PaymentTab(p.onTime, p.total, PaymentScore(p))
      else if tab == "debt" then
        var d := store.debts[id];
        DebtPathsAgree(d);
        DebtTab(d.used, d.limit, DebtTabScore(d))
      else if tab == "history" then
        var h := store.histories[id];
        HistoryTab(h.accountStart, AccountAge(h, currentYear), HistoryScore(h, currentYear))
      else if tab == "mix" then
        var m := store.mixes[id];
        MixTab(m.typesUsed, m.totalTypes, MixScore(m))
      else if tab == "score" then
        FinalScore(CalculateScoreComponents(store, id, currentYear))
      else
        InvalidTab
  }

  /** With no identifier the prompt is shown before any store is consulted:
      the view does not depend on the stores or the clock. */
  lemma PromptBeforeLookup(tab: string, userId: Option<int>, s1: Store, s2: Store,
                           year1: int, year2: int)
    requires IsFalsy(userId)
    ensures RenderTab(tab, userId, s1, year1) == RenderTab(tab, userId, s2, year2) == Prompt
  {
  }

  /** Only the home tab reads the users store: every other tab renders the
      same whether or not the user exists. */
  lemma ScoringTabsIgnoreUsers(tab: string, userId: Option<int>, store: Store,
                               users: map<int, UserInfo>, currentYear: int)
    requires tab != "home" && RowsAvailable(tab, userId, store)
    ensures RenderTab(tab, userId, store.(users := users), currentYear)
         == RenderTab(tab, userId, store, currentYear)
  {
  }

  /** The breakdown on the final-score tab repeats the scores the four
      individual tabs show for the same user, the debt score included
      although the two tabs compute it differently. */
  lemma FinalScoreMatchesTabs(id: int, store: Store, currentYear: int)
    requires id != 0 && HasScoringRows(store, id)
    ensures var c := RenderTab("score", Some(id), store, currentYear).components;
      && c.payment == RenderTab("payment", Some(id), store, currentYear).score
      && c.debt == RenderTab("debt", Some(id), store, currentYear).score
      && c.history == RenderTab("history", Some(id), store, currentYear).score
      && c.mix == RenderTab("mix", Some(id), store, currentYear).score
  {
    DebtPathsAgree(store.debts[id]);
  }
}
