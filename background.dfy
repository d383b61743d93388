/** The service worker of the browser extension (URL_Server/background.js):
    when a tab finishes loading or becomes active, it extracts the page's
    links, computes the cache token ("1" when the page is the one it pushed
    last, "0" otherwise), records the page as the previous one, and posts
    the three fields to the voice server's /process-links endpoint. The
    Chrome APIs are inputs: whether the tab exists, what the injected
    script read, whether the storage write and the POST succeeded. */
module Background {
  import opened Wrappers
  import opened Text
  import opened ContentScript

  /** The JSON body posted to /process-links. */
  datatype PushMessage = PushMessage(token: string, currentUrl: string, allUrls: seq<string>)

  /** The token of a push: "1" exactly when the extracted page is the one
      stored as `previousUrl` (`null` never equals a page). */
  function TokenFor(currentUrl: string, previousUrl: Option<string>): (t: string)
    ensures t == "1" <==> previousUrl == Some(currentUrl)
    ensures t != "1" ==> t == "0"
  {
    if previousUrl == Some(currentUrl) then "1" else "0"
  }

  /** `loadPreviousUrl`: `data.previousUrl || null`, so a missing entry and
      an empty string both load as `null`. */
  function Loaded(stored: Option<string>): (r: Option<string>)
    ensures r.Some? <==> stored.Some? && stored.value != ""
    ensures r.Some? ==> r == stored
  {
    if stored.Some? && stored.value != "" then stored else None
  }

  /** JavaScript's truthiness of a tab id: `undefined`, `null` and 0 are
      false. */
  predicate TabIdTruthy(tabId: Option<int>)
  {
    tabId.Some? && tabId.value != 0
  }

  /** What the Chrome APIs give one call of `processTab`: the tab id it is
      passed, whether `chrome.tabs.get` finds the tab, what the injected
      function read from the page (`None` when `executeScript` rejects or
      returns no result), whether `chrome.storage.local.set` succeeds, and
      whether the POST gets an OK reply. */
  datatype Visit = Visit(tabId: Option<int>, tabExists: bool, script: Option<Page>,
                         storageOk: bool, serverOk: bool)

  /** The object the injected function returns, when `processTab` gets that
      far: the tab id is truthy and valid and the script returned. */
  function Extracted(visit: Visit): (r: Option<PageData>)
    ensures r.Some? <==> TabIdTruthy(visit.tabId) && visit.tabExists && visit.script.Some?
    ensures r.Some? ==> r.value == ExtractUrls(visit.script.value)
  {
    if TabIdTruthy(visit.tabId) && visit.tabExists && visit.script.Some? then
      Some(ExtractUrls(visit.script.value))
    else
      None
  }

  /** What one `processTab` leaves behind: the new `previousUrl` and the
      POST it sent, if any. */
  datatype Step = Step(previousUrl: Option<string>, post: Option<PushMessage>)

  function ProcessStep(previousUrl: Option<string>, visit: Visit): (r: Step)
    ensures Extracted(visit).None? || !visit.storageOk ==> r == Step(previousUrl, None)
    ensures Extracted(visit).Some? && visit.storageOk ==>
              var data := Extracted(visit).value;
              r.previousUrl == Some(data.currentUrl) &&
              r.post == Some(PushMessage(TokenFor(data.currentUrl, previousUrl), data.currentUrl, data.allUrls))
    ensures r.post.Some? ==> r.previousUrl == Some(r.post.value.currentUrl)
    ensures r.post.Some? ==> (r.post.value.token == "1" <==> previousUrl == r.previousUrl)
  {
    match Extracted(visit)
    case None => Step(previousUrl, None)
    case Some(data) =>
      if visit.storageOk then
        Step(Some(data.currentUrl),
             Some(PushMessage(TokenFor(data.currentUrl, previousUrl), data.currentUrl, data.allUrls)))
      else
        Step(previousUrl, None)
  }

  /** A series of `processTab` calls, each seeing the `previousUrl` the one
      before left: the POSTs sent, in order, and the final `previousUrl`. */
  function Pushes(previousUrl: Option<string>, visits: seq<Visit>): (r: (seq<PushMessage>, Option<string>))
    ensures |r.0| <= |visits|
    ensures forall k :: 0 <= k < |r.0| ==> r.0[k].token == "0" || r.0[k].token == "1"
    decreases |visits|
  {
    if visits == [] then ([], previousUrl)
    else
      var step := ProcessStep(previousUrl, visits[0]);
      var rest := Pushes(step.previousUrl, visits[1..]);
      ((if step.post.Some? then [step.post.value] else []) + rest.0, rest.1)
  }

  /** The token of every POST says whether its page is the page of the POST
      before it (for the first one, the page the worker started with). */
  lemma {:induction false} TokenMeansSamePage(previousUrl: Option<string>, visits: seq<Visit>)
    ensures var posts := Pushes(previousUrl, visits).0;
            |posts| > 0 ==> (posts[0].token == "1" <==> previousUrl == Some(posts[0].currentUrl))
    ensures var posts := Pushes(previousUrl, visits).0;
            forall k :: 0 < k < |posts| ==>
              (posts[k].token == "1" <==> posts[k].currentUrl == posts[k - 1].currentUrl)
    decreases |visits|
  {
    if visits != [] {
      var step := ProcessStep(previousUrl, visits[0]);
      var rest := Pushes(step.previousUrl, visits[1..]);
      TokenMeansSamePage(step.previousUrl, visits[1..]);
      if step.post.Some? {
        var posts := [step.post.value] + rest.0;
        assert Pushes(previousUrl, visits).0 == posts;
        forall k | 0 < k < |posts|
          ensures posts[k].token == "1" <==> posts[k].currentUrl == posts[k - 1].currentUrl
        {
          assert posts[k] == rest.0[k - 1];
          if k > 1 {
            assert posts[k - 1] == rest.0[k - 2];
          } else {
            assert posts[k - 1] == step.post.value;
          }
        }
      } else {
        assert Pushes(previousUrl, visits).0 == rest.0 by {
          assert [] + rest.0 == rest.0;
        }
      }
    }
  }

  /** The first call of a series: what it posts and the `previousUrl` the
      rest of the series starts from. */
  lemma PushesFirst(previousUrl: Option<string>, visits: seq<Visit>)
    returns (post: Option<PushMessage>, next: Option<string>)
    requires visits != []
    ensures Pushes(previousUrl, visits).0 ==
              (if post.Some? then [post.value] else []) + Pushes(next, visits[1..]).0
    ensures Pushes(previousUrl, visits).1 == Pushes(next, visits[1..]).1
    ensures post.None? ==> next == previousUrl
    ensures post.Some? ==> next == Some(post.value.currentUrl)
  {
    var step := ProcessStep(previousUrl, visits[0]);
    post, next := step.post, step.previousUrl;
  }

  /** The worker ends remembering the page of the last POST, or the page it
      started with when nothing was posted. */
  lemma {:induction false} LastPushRemembered(previousUrl: Option<string>, visits: seq<Visit>)
    ensures Pushes(previousUrl, visits).0 != [] ==>
              Pushes(previousUrl, visits).1 ==
                Some(Pushes(previousUrl, visits).0[|Pushes(previousUrl, visits).0| - 1].currentUrl)
    ensures Pushes(previousUrl, visits).0 == [] ==> Pushes(previousUrl, visits).1 == previousUrl
    decreases |visits|
  {
    if visits != [] {
      var post, next := PushesFirst(previousUrl, visits);
      var rest := Pushes(next, visits[1..]);
      var whole := Pushes(previousUrl, visits);
      LastPushRemembered(next, visits[1..]);
      if post.Some? && rest.0 != [] {
        assert whole.0[|whole.0| - 1] == rest.0[|rest.0| - 1];
      } else if post.None? {
        assert whole.0 == rest.0 by {
          assert [] + rest.0 == rest.0;
        }
      }
    }
  }

  /** The first page a fresh worker pushes always carries "0". */
  lemma FirstPushIsCold(visits: seq<Visit>)
    ensures Pushes(None, visits).0 != [] ==> Pushes(None, visits).0[0].token == "0"
  {
    TokenMeansSamePage(None, visits);
  }

  /** The guard of the `onUpdated` listener: the load is complete and the
      tab's URL is known and starts with "http". */
  predicate UpdatedTriggers(status: Option<string>, tabUrl: Option<string>)
  {
    status == Some("complete") && tabUrl.Some? && StartsWith(tabUrl.value, "http")
  }

  /** The guard of the `onActivated` listener, once the tab id is truthy:
      the tab's URL is known and starts with "http". */
  predicate ActivatedTriggers(tabUrl: Option<string>)
  {
    tabUrl.Some? && StartsWith(tabUrl.value, "http")
  }

  /** A tab as `chrome.tabs.get` or `chrome.tabs.query` describes it. */
  datatype TabInfo = TabInfo(id: Option<int>, url: Option<string>)

  /** The module-level `previousUrl`, the `previousUrl` entry of
      `chrome.storage.local`, and the POSTs sent so far. */
  class ServiceWorker {
    var previousUrl: Option<string>
    var stored: Option<string>
    var posts: seq<PushMessage>

    /** A worker starts with `previousUrl` null; storage survives restarts. */
    constructor (storage: Option<string>)
      ensures previousUrl == None && stored == storage && posts == []
    {
      previousUrl := None;
      stored := storage;
      posts := [];
    }

    method LoadPreviousUrl()
      modifies this
      ensures previousUrl == Loaded(old(stored))
      ensures stored == old(stored) && posts == old(posts)
    {
      if stored.Some? && stored.value != "" {
        previousUrl := stored;
      } else {
        previousUrl := None;
      }
    }

    /** `processTab`. Returns whether it logged success. The new page is
        written to storage and to `previousUrl` before the POST, so both
        change even when the server then fails. */
    method ProcessTab(visit: Visit) returns (succeeded: bool)
      modifies this
      ensures Step(previousUrl, if |posts| > |old(posts)| then Some(posts[|posts| - 1]) else None)
              == ProcessStep(old(previousUrl), visit)
      ensures posts == old(posts) + (if ProcessStep(old(previousUrl), visit).post.Some?
                                     then [ProcessStep(old(previousUrl), visit).post.value] else [])
      ensures stored == (if ProcessStep(old(previousUrl), visit).post.Some? then previousUrl else old(stored))
      ensures succeeded <==> ProcessStep(old(previousUrl), visit).post.Some? && visit.serverOk
    {
      if !TabIdTruthy(visit.tabId) {
        return false;
      }
      if !visit.tabExists {
        return false;
      }
      if visit.script.None? {
        // 'Script execution failed to return results'
        return false;
      }
      var result := ExtractUrls(visit.script.value);
      var token := if Some(result.currentUrl) == previousUrl then "1" else "0";
      if !visit.storageOk {
        return false;
      }
      stored := Some(result.currentUrl);
      previousUrl := Some(result.currentUrl);
      posts := posts + [PushMessage(token, result.currentUrl, result.allUrls)];
      succeeded := visit.serverOk;
    }

    /** The `onUpdated` listener: `current` is what `chrome.tabs.get`
        resolves to (`None` when it rejects). */
    method OnUpdated(tabId: int, status: Option<string>, tab: Option<TabInfo>,
                     current: Option<TabInfo>, visit: Visit)
      modifies this
      ensures var runs := UpdatedTriggers(status, if tab.Some? then tab.value.url else None) && current.Some?;
              var step := ProcessStep(old(previousUrl), visit.(tabId := Some(tabId)));
              if runs then previousUrl == step.previousUrl &&
                           posts == old(posts) + (if step.post.Some? then [step.post.value] else []) &&
                           stored == (if step.post.Some? then step.previousUrl else old(stored))
              else previousUrl == old(previousUrl) && posts == old(posts) && stored == old(stored)
    {
      var url := if tab.Some? then tab.value.url else None;
      if UpdatedTriggers(status, url) && current.Some? {
        var _ := ProcessTab(visit.(tabId := Some(tabId)));
      }
    }

    /** The `onActivated` listener: `tab` is what `chrome.tabs.get` resolves
        to (`None` when it rejects). */
    method OnActivated(activeTabId: Option<int>, tab: Option<TabInfo>, visit: Visit)
      modifies this
      ensures var runs := TabIdTruthy(activeTabId) && tab.Some? && ActivatedTriggers(tab.value.url);
              var step := ProcessStep(old(previousUrl), visit.(tabId := if tab.Some? then tab.value.id else None));
              if runs then previousUrl == step.previousUrl &&
                           posts == old(posts) + (if step.post.Some? then [step.post.value] else []) &&
                           stored == (if step.post.Some? then step.previousUrl else old(stored))
              else previousUrl == old(previousUrl) && posts == old(posts) && stored == old(stored)
    {
      if !TabIdTruthy(activeTabId) {
        return;
      }
      if tab.Some? && ActivatedTriggers(tab.value.url) {
        var _ := ProcessTab(visit.(tabId := tab.value.id));
      }
    }

    /** `initializeExtension`: load `previousUrl`, then process the active tab
        of the current window, if it has a truthy id and an http URL. */
    method InitializeExtension(tabs: seq<TabInfo>, visit: Visit)
      modifies this
      ensures var runs := |tabs| > 0 && TabIdTruthy(tabs[0].id) && ActivatedTriggers(tabs[0].url);
              var step := ProcessStep(Loaded(old(stored)), visit.(tabId := if |tabs| > 0 then tabs[0].id else None));
              if runs then previousUrl == step.previousUrl &&
                           posts == old(posts) + (if step.post.Some? then [step.post.value] else []) &&
                           stored == (if step.post.Some? then step.previousUrl else old(stored))
              else previousUrl == Loaded(old(stored)) && posts == old(posts) && stored == old(stored)
    {
      LoadPreviousUrl();
      if |tabs| > 0 && TabIdTruthy(tabs[0].id) && ActivatedTriggers(tabs[0].url) {
        var _ := ProcessTab(visit.(tabId := tabs[0].id));
      }
    }
  }

  /** After the extension is activated (installed, updated or reloaded),
      `initializeExtension` loads the stored page, so the worker remembers
      the last page it pushed, unless that was the empty page. A worker
      woken from idle, or started with the browser, does not load it and
      starts from `null` (`FirstPushIsCold`). */
  lemma RestartRemembers(url: string)
    requires url != ""
    ensures Loaded(Some(url)) == Some(url)
    ensures TokenFor(url, Loaded(Some(url))) == "1"
  {
  }
}
