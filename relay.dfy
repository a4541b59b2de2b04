/**
 * The local relay's request handler: a request for the project archive
 * hides the panel, schedules the extraction workflow to run after the
 * response is sent, and is answered with an empty 204; every other request goes on to the proxy, whose
 * response loses its framing headers before it is sent back.
 */
module Relay {
  import opened Wrappers
  import opened ProxyHeaders
  import Panel
  import Extraction
  import ProjectNameChain

  /** The path prefix of the archive download that the relay intercepts. */
  const StarterPrefix := "/starter.zip"

  const NoContentStatus: nat := 204

  /** Where a request goes: answered here with a scheduled job, or passed to the proxy. */
  datatype Route =
    | Intercept(status: nat, body: string, scheduled: string)
    | Forward(url: string)

  /** A response as the relay sends it back. */
  datatype Response = Response(status: nat, headers: map<string, HeaderValue>, body: string)

  /** The first middleware's test on the request URL (path and query): a plain prefix comparison. */
  function Classify(url: string): Route {
    if StarterPrefix <= url then Intercept(NoContentStatus, "", url) else Forward(url)
  }

  /**
   * What the relay sends back: the empty 204 for an intercepted request,
   * otherwise the upstream response with the four framing spellings gone and
   * its status, body and other headers as they came.
   */
  function Respond(url: string, upstream: Response): (r: Response)
    ensures StarterPrefix <= url ==> r.status == NoContentStatus && r.body == ""
    ensures !(StarterPrefix <= url) ==> r.status == upstream.status && r.body == upstream.body
    ensures !(StarterPrefix <= url) ==> r.headers.Keys == upstream.headers.Keys - FramingHeaders
    ensures !(StarterPrefix <= url) ==> forall name :: name in r.headers ==> r.headers[name] == upstream.headers[name]
  {
    match Classify(url)
    case Intercept(status, body, _) => Response(status, map[], body)
    case Forward(_) => upstream.(headers := WithoutFramingHeaders(upstream.headers))
  }

  /**
   * Handles one request. `upstream` stands for the response the proxy would
   * receive from the remote origin; it is not read for an intercepted
   * request. The scheduled job, when there is one, is the URL the
   * extraction workflow will run on.
   */
  method HandleRequest(url: string, upstream: Response, state: Panel.PanelState, host: Panel.Host)
    returns (response: Response, job: Option<string>)
    requires state.Valid(host)
    modifies state, state.current, host
    ensures state.Valid(host)
    ensures response == Respond(url, upstream)
    ensures job.Some? <==> StarterPrefix <= url
    ensures job.Some? ==> job.value == url
    ensures StarterPrefix <= url ==> state.current == null
    ensures StarterPrefix <= url && old(state.current) != null ==>
      var w := old(state.current).webview;
      host.calls == old(host.calls) + [Panel.DisposeWebview(w), Panel.DisposeWebview(w)]
        + Panel.ReleaseCalls(Panel.DisposalOrder(old(state.current.disposables)))
    ensures old(state.current) == null || !(StarterPrefix <= url) ==> host.calls == old(host.calls)
    ensures StarterPrefix <= url && old(state.current) != null ==> old(state.current).disposables == []
    ensures !(StarterPrefix <= url) ==> state.current == old(state.current)
    ensures !(StarterPrefix <= url) && state.current != null ==>
      state.current.disposables == old(state.current.disposables)
    ensures host.nextId == old(host.nextId)
  {
    var route := Classify(url);
    match route
    case Intercept(status, body, scheduled) =>
      state.Hide(host);
      job := Some(scheduled);
      response := Response(status, map[], body);
    case Forward(_) =>
      var proxied := new ProxyResponse(upstream.headers);
      proxied.StripFramingHeaders();
      job := None;
      response := upstream.(headers := proxied.headers);
  }

  /** The events of the scheduled job, none when the request was forwarded. */
  function JobEvents(job: Option<string>, env: Extraction.Environment, picked: Option<seq<string>>, downloaded: bool)
    : (events: seq<Extraction.Event>)
    ensures job.None? ==> events == []
    ensures job.Some? && ProjectNameChain.ProjectName(job.value) == "" ==> events == []
    ensures events != [] ==> events[0].PromptForFolder?
  {
    match job
    case None => []
    case Some(url) =>
      var events := Extraction.Workflow(url, env, picked, downloaded);
      Extraction.WorkflowOutcomes(url, env, picked, downloaded);
      events
  }

  /** A scheduled job runs the extraction workflow on its URL. */
  lemma JobRunsWorkflow(url: string, env: Extraction.Environment, picked: Option<seq<string>>, downloaded: bool)
    ensures JobEvents(Some(url), env, picked, downloaded) == Extraction.Workflow(url, env, picked, downloaded)
  {
  }

  /** A request for the archive of the `demo` project is intercepted and its job is scheduled on the request URL. */
  lemma ExampleUrlIntercepted()
    ensures Classify(ProjectNameChain.ExampleUrl) == Intercept(NoContentStatus, "", ProjectNameChain.ExampleUrl)
  {
    assert ProjectNameChain.ExampleUrl[..|StarterPrefix|] == StarterPrefix;
  }

  const NestedStarterPath := "/app/starter.zip"

  /** The test is on the start of the URL: the archive name deeper in the path is forwarded. */
  lemma NestedStarterPathForwarded()
    ensures Classify(NestedStarterPath) == Forward(NestedStarterPath)
  {
    assert NestedStarterPath[1] != StarterPrefix[1];
  }

  const StarterPrefixLookalike := "/starter.zipper"

  /** The test is a string prefix, not a path segment: a longer name that starts the same way is intercepted. */
  lemma LookalikeIntercepted()
    ensures Classify(StarterPrefixLookalike).Intercept?
  {
    assert StarterPrefixLookalike[..|StarterPrefix|] == StarterPrefix;
  }

  /**
   * The demo run end to end: the request for the `demo` archive is answered
   * with an empty 204, and its job prompts, downloads and opens the project.
   */
  lemma DemoRequestEndToEnd(upstream: Response, env: Extraction.Environment)
    requires !env.pathExists(env.joinPath("/tmp/out", "demo"))
    ensures Respond(ProjectNameChain.ExampleUrl, upstream) == Response(NoContentStatus, map[], "")
    ensures |JobEvents(Some(ProjectNameChain.ExampleUrl), env, Some(["/tmp/out"]), true)| == 3
    ensures JobEvents(Some(ProjectNameChain.ExampleUrl), env, Some(["/tmp/out"]), true)[2]
      == Extraction.OpenInNewWindow(env.joinPath("/tmp/out", "demo"))
  {
    ExampleUrlIntercepted();
    var picked: Option<seq<string>> := Some(["/tmp/out"]);
    JobRunsWorkflow(ProjectNameChain.ExampleUrl, env, picked, true);
    Extraction.DemoScenario(env);
  }
}
