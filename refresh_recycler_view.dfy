/** The refresh-state codes of the pull-to-refresh wrapper and their decoding
    into the state names the refresh layout understands. */
module RefreshRecyclerView {

  import opened Wrappers

  const Idle: int := 0
  const HeaderRefreshing: int := 1
  const FooterRefreshing: int := 2
  const NoMoreData: int := 3
  const Failure: int := 4
  const FirstLoad: int := 5
  const PreLoad: int := 6

  /** The seven codes are the consecutive integers 0..6. */
  lemma StateCodes()
    ensures [Idle, HeaderRefreshing, FooterRefreshing, NoMoreData, Failure, FirstLoad, PreLoad]
         == [0, 1, 2, 3, 4, 5, 6]
  {
  }

  /** The switch of `getRefreshState`: a code with a case gets its name, any
      other value leaves the local unassigned (`undefined`). */
  function GetRefreshState(state: int): (r: Option<string>)
    ensures r.Some? <==> Idle <= state <= FirstLoad
    ensures r != Some("PreLoad")
  {
    if state == Idle then Some("Idle")
    else if state == HeaderRefreshing then Some("HeaderRefreshing")
    else if state == FooterRefreshing then Some("FooterRefreshing")
    else if state == NoMoreData then Some("NoMoreData")
    else if state == Failure then Some("Failure")
    else if state == FirstLoad then Some("FirstLoad")
    else None
  }

  /** Reference inverse: the code a state name stands for. */
  function RefreshStateCode(name: string): (c: Option<int>)
  {
    if name == "Idle" then Some(Idle)
    else if name == "HeaderRefreshing" then Some(HeaderRefreshing)
    else if name == "FooterRefreshing" then Some(FooterRefreshing)
    else if name == "NoMoreData" then Some(NoMoreData)
    else if name == "Failure" then Some(Failure)
    else if name == "FirstLoad" then Some(FirstLoad)
    else None
  }

  /** Every decoded name leads back to the code it came from. */
  lemma DecodeRoundTrip(state: int)
    ensures GetRefreshState(state).Some? ==> RefreshStateCode(GetRefreshState(state).value) == Some(state)
  {
  }

  /** Every recognised name is what its code decodes to. */
  lemma EncodeRoundTrip(name: string)
    ensures RefreshStateCode(name).Some? ==> GetRefreshState(RefreshStateCode(name).value) == Some(name)
  {
  }

  /** Decoding is injective on the codes that have a name. */
  lemma GetRefreshStateInjective(a: int, b: int)
    requires GetRefreshState(a).Some?
    requires GetRefreshState(a) == GetRefreshState(b)
    ensures a == b
  {
    DecodeRoundTrip(a);
    DecodeRoundTrip(b);
  }

  /** `PreLoad` is declared but has no case in the switch. */
  lemma PreLoadHasNoName()
    ensures PreLoad == 6
    ensures GetRefreshState(PreLoad) == None
  {
  }

  /** The props the wrapper hands to the refresh layout that carry logic. */
  datatype RefreshLayoutProps = RefreshLayoutProps(enableRefresh: bool, refreshState: Option<string>)

  /** The refresh layout receives `enableRefresh` as given and a state name
      exactly for the codes 0..5, the name of that very code (never
      `'PreLoad'`); any other code reaches it as `undefined`. */
  function LayoutProps(enableRefresh: bool, refreshState: int): (p: RefreshLayoutProps)
    ensures p.enableRefresh == enableRefresh
    ensures p.refreshState.Some? <==> 0 <= refreshState <= 5
    ensures p.refreshState.Some? ==> RefreshStateCode(p.refreshState.value) == Some(refreshState)
    ensures p.refreshState != Some("PreLoad")
  {
    RefreshLayoutProps(enableRefresh, GetRefreshState(refreshState))
  }
}
