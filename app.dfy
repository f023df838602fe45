/** The page's own state: the loaded tokens and statistics, which token the
    investment dialog is for, whether the dialog is open, and the language. */
module App {
  import opened Wrappers
  import opened Offering

  /** The statistics object; either total may be missing from the API's answer. */
  datatype Stats = Stats(totalRaised: Option<real>, totalGoal: Option<real>)

  /** `{}`: the statistics before the first load. */
  const NoStats := Stats(None, None)

  const DefaultRaised: real := 872500.0
  const DefaultGoal: real := 2000000.0

  /** JavaScript's `x || fallback` on a number that may be missing: a missing value and
      a 0 both give the fallback. */
  function OrElse(x: Option<real>, fallback: real): (r: real)
    ensures x.Some? && x.value != 0.0 ==> r == x.value
    ensures x.None? || x.value == 0.0 ==> r == fallback
  {
    if x.Some? && x.value != 0.0 then x.value else fallback
  }

  /** `stats.total_raised || 872500`: never 0. */
  function TotalRaised(stats: Stats): (r: real)
    ensures r != 0.0
    ensures stats.totalRaised.Some? && stats.totalRaised.value != 0.0 ==> r == stats.totalRaised.value
    ensures stats.totalRaised == None || stats.totalRaised == Some(0.0) ==> r == DefaultRaised
  {
    OrElse(stats.totalRaised, DefaultRaised)
  }

  /** `stats.total_goal || 2000000`: never 0, so the progress percentage, which divides
      by it, is always defined. */
  function TotalGoal(stats: Stats): (r: real)
    ensures r != 0.0
    ensures stats.totalGoal.Some? && stats.totalGoal.value != 0.0 ==> r == stats.totalGoal.value
    ensures stats.totalGoal == None || stats.totalGoal == Some(0.0) ==> r == DefaultGoal
  {
    OrElse(stats.totalGoal, DefaultGoal)
  }

  lemma TotalsBeforeLoad()
    ensures TotalRaised(NoStats) == DefaultRaised && TotalGoal(NoStats) == DefaultGoal
  {
  }

  /** The page's state fields; `loadRequests` counts the calls of `loadData`. */
  datatype AppView = AppView(
    tokens: seq<Token>,
    stats: Stats,
    selectedToken: Option<Token>,
    showInvestModal: bool,
    language: string,
    loadRequests: nat
  )

  /** The initial state, with the mount effect's first `loadData` call counted. */
  const Initial := AppView([], NoStats, None, false, "pt", 1)

  /** `showInvestModal && selectedToken`: the token the dialog is rendered for, or
      nothing when it is not rendered. */
  function ModalToken(v: AppView): (t: Option<Token>)
    ensures t.Some? <==> v.showInvestModal && v.selectedToken.Some?
    ensures t.Some? ==> t == v.selectedToken
  {
    if v.showInvestModal && v.selectedToken.Some? then v.selectedToken else None
  }

  /** `loadData` once both fetches have answered: their results replace the tokens and
      the statistics. */
  function Loaded(v: AppView, tokens: seq<Token>, stats: Stats): (r: AppView)
    ensures r.tokens == tokens && r.stats == stats
    ensures r.(tokens := v.tokens, stats := v.stats) == v
  {
    v.(tokens := tokens, stats := stats)
  }

  /** `handleInvest(token)`: the dialog opens for that token. */
  function Open(v: AppView, token: Token): (r: AppView)
    ensures ModalToken(r) == Some(token)
    ensures r.(selectedToken := v.selectedToken, showInvestModal := v.showInvestModal) == v
  {
    v.(selectedToken := Some(token), showInvestModal := true)
  }

  /** `handleInvestmentComplete`: the dialog closes, the selection is forgotten and the
      data is loaded again. */
  function Complete(v: AppView): (r: AppView)
    ensures !r.showInvestModal && r.selectedToken.None? && ModalToken(r).None?
    ensures r.loadRequests == v.loadRequests + 1
    ensures r.tokens == v.tokens && r.stats == v.stats && r.language == v.language
  {
    v.(showInvestModal := false, selectedToken := None, loadRequests := v.loadRequests + 1)
  }

  /** The dialog's `onClose`: only the flag is cleared; the selection stays. */
  function Close(v: AppView): (r: AppView)
    ensures !r.showInvestModal && ModalToken(r).None?
    ensures r.selectedToken == v.selectedToken
    ensures r.(showInvestModal := v.showInvestModal) == v
  {
    v.(showInvestModal := false)
  }

  /** Something that happens to the page. */
  datatype AppEvent =
    | Fetched(tokens: seq<Token>, stats: Stats)
    | Invest(token: Token)
    | InvestmentComplete
    | CloseModal

  function Apply(v: AppView, e: AppEvent): (r: AppView) {
    match e
    case Fetched(ts, st) => Loaded(v, ts, st)
    case Invest(t) => Open(v, t)
    case InvestmentComplete => Complete(v)
    case CloseModal => Close(v)
  }

  function Replay(v: AppView, events: seq<AppEvent>): (r: AppView)
    decreases |events|
  {
    if events == [] then v else Replay(Apply(v, events[0]), events[1..])
  }

  /** The dialog is open only with a token selected. */
  predicate OpenOnlyWithSelection(v: AppView) {
    v.showInvestModal ==> v.selectedToken.Some?
  }

  /** The last token an `Invest` event named, if any. */
  function LastInvested(events: seq<AppEvent>): (t: Option<Token>)
    decreases |events|
  {
    if events == [] then None
    else
      var later := LastInvested(events[..|events| - 1]);
      var e := events[|events| - 1];
      if e.Invest? then Some(e.token) else later
  }

  /** In every state the page reaches, the open flag implies a selection, so the
      dialog is rendered exactly when it is open; and whenever it is rendered, it is
      for the token of the most recent `Invest`. A `CloseModal` keeps a stale
      selection, but it never reappears: only `Invest` reopens, and it selects anew. */
  lemma {:induction false} ReplayKeepsSelection(v: AppView, events: seq<AppEvent>)
    requires OpenOnlyWithSelection(v)
    ensures var r := Replay(v, events);
            && OpenOnlyWithSelection(r)
            && (ModalToken(r).Some? <==> r.showInvestModal)
            && (ModalToken(r).Some? && LastInvested(events).Some? ==> ModalToken(r) == LastInvested(events))
            && (ModalToken(r).Some? && LastInvested(events).None? ==> ModalToken(r) == ModalToken(v))
    decreases |events|
  {
    if events != [] {
      var init := events[..|events| - 1];
      var e := events[|events| - 1];
      ReplayKeepsSelection(v, init);
      ReplaySnoc(v, init, e);
      assert events == init + [e];
    }
  }

  /** Replaying one more event is applying it to the replay so far. */
  lemma {:induction false} ReplaySnoc(v: AppView, events: seq<AppEvent>, e: AppEvent)
    ensures Replay(v, events + [e]) == Apply(Replay(v, events), e)
    decreases |events|
  {
    if events == [] {
      assert [e][1..] == [];
    } else {
      assert (events + [e])[1..] == events[1..] + [e];
      ReplaySnoc(Apply(v, events[0]), events[1..], e);
    }
  }

  /** The page's state, updated in place by its handlers. */
  class AppState {
    var tokens: seq<Token>
    var stats: Stats
    var selectedToken: Option<Token>
    var showInvestModal: bool
    var language: string
    var loadRequests: nat

    function View(): (v: AppView)
      reads this
    {
      AppView(tokens, stats, selectedToken, showInvestModal, language, loadRequests)
    }

    constructor ()
      ensures View() == Initial
    {
      tokens := [];
      stats := NoStats;
      selectedToken := None;
      showInvestModal := false;
      language := "pt";
      loadRequests := 1;
    }

    method LoadData(tokensData: seq<Token>, statsData: Stats)
      modifies this
      ensures View() == Loaded(old(View()), tokensData, statsData)
    {
      tokens := tokensData;
      stats := statsData;
    }

    method HandleInvest(token: Token)
      modifies this
      ensures View() == Open(old(View()), token)
    {
      selectedToken := Some(token);
      showInvestModal := true;
    }

    method HandleInvestmentComplete()
      modifies this
      ensures View() == Complete(old(View()))
    {
      showInvestModal := false;
      selectedToken := None;
      loadRequests := loadRequests + 1;
    }

    method CloseModal()
      modifies this
      ensures View() == Close(old(View()))
    {
      showInvestModal := false;
    }
  }
}
