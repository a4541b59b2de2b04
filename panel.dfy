/**
 * The webview panel of the extension: a singleton held in a static slot,
 * created or revealed on command, hidden when a download is intercepted,
 * and torn down by disposing the view and then its registered resources
 * from the last one registered to the first.
 *
 * The editor host is a recording object: every request the panel code makes
 * of it is appended to `calls`, and each new webview gets a fresh number.
 */
module Panel {
  import opened Wrappers

  const ViewType := "spring-initializr-iframe"
  const Title := "Spring Initializr"

  /** The editor group numbering of the host; the first group is 1. */
  const ColumnOne: int := 1

  /** The active text editor, of which only its editor group matters here. */
  datatype TextEditor = TextEditor(viewColumn: Option<int>)

  /** A resource the panel must release: the subscription to its own view's disposal. */
  datatype Disposable = DidDisposeListener(panel: nat)

  /** A request made of the editor host. */
  datatype HostCall =
    | CreateWebviewPanel(id: nat, viewType: string, title: string, column: int)
    | Reveal(id: nat, revealColumn: Option<int>)
    | DisposeWebview(id: nat)
    | DisposeResource(resource: Disposable)

  /** The column of the active editor, or none when there is no active editor. */
  function ActiveColumn(editor: Option<TextEditor>): Option<int> {
    match editor
    case None => None
    case Some(e) => e.viewColumn
  }

  /** `column || ViewColumn.One`: an absent column, or the falsy number 0, becomes the first group. */
  function ColumnOrOne(column: Option<int>): (c: int)
    ensures c != 0
  {
    if column.Some? && column.value != 0 then column.value else ColumnOne
  }

  /** The order in which popping a registration list releases its resources: last registered first. */
  function DisposalOrder(ds: seq<Disposable>): (r: seq<Disposable>)
    ensures |r| == |ds|
    ensures forall k :: 0 <= k < |ds| ==> r[k] == ds[|ds| - 1 - k]
  {
    if ds == [] then [] else DisposalOrder(ds[1..]) + [ds[0]]
  }

  /** Releasing twice in pop order gives back the registration order. */
  lemma {:induction false} DisposalOrderTwice(ds: seq<Disposable>)
    ensures DisposalOrder(DisposalOrder(ds)) == ds
  {
    var r := DisposalOrder(DisposalOrder(ds));
    assert |r| == |ds|;
    forall k | 0 <= k < |ds| ensures r[k] == ds[k] {
      assert r[k] == DisposalOrder(ds)[|ds| - 1 - k];
    }
  }

  /** The host requests that release the given resources, in the given order. */
  function ReleaseCalls(ds: seq<Disposable>): seq<HostCall> {
    seq(|ds|, k requires 0 <= k < |ds| => DisposeResource(ds[k]))
  }

  /** The webview `id` was created and has not been disposed since. */
  ghost predicate IsLive(calls: seq<HostCall>, id: nat) {
    && (exists i :: 0 <= i < |calls| && calls[i].CreateWebviewPanel? && calls[i].id == id)
    && DisposeWebview(id) !in calls
  }

  /** The number of webviews the host was asked to create. */
  function CreationCount(calls: seq<HostCall>): (n: nat)
    ensures n <= |calls|
    ensures n == 0 <==> forall i :: 0 <= i < |calls| ==> !calls[i].CreateWebviewPanel?
  {
    if calls == [] then 0
    else CreationCount(calls[..|calls| - 1]) + (if calls[|calls| - 1].CreateWebviewPanel? then 1 else 0)
  }

  /** Counting creations over a log that grew. */
  lemma {:induction false} CreationCountAppend(calls: seq<HostCall>, more: seq<HostCall>)
    ensures CreationCount(calls + more) == CreationCount(calls) + CreationCount(more)
    decreases |more|
  {
    if more == [] {
      assert calls + more == calls;
    } else {
      var last := more[|more| - 1];
      assert (calls + more)[..|calls + more| - 1] == calls + more[..|more| - 1];
      CreationCountAppend(calls, more[..|more| - 1]);
    }
  }

  /** The editor host, as a log of the requests it received and a counter for new webview numbers. */
  class Host {
    var calls: seq<HostCall>
    var nextId: nat

    constructor ()
      ensures calls == [] && nextId == 0
    {
      calls := [];
      nextId := 0;
    }

    /** Every webview number the log mentions was handed out before. */
    ghost predicate NumbersIssued()
      reads this
    {
      forall i :: 0 <= i < |calls| && !calls[i].DisposeResource? ==> calls[i].id < nextId
    }

    method CreateWebviewPanel(viewType: string, title: string, column: int) returns (id: nat)
      modifies this
      ensures id == old(nextId) && nextId == old(nextId) + 1
      ensures calls == old(calls) + [HostCall.CreateWebviewPanel(id, viewType, title, column)]
    {
      id := nextId;
      nextId := nextId + 1;
      calls := calls + [HostCall.CreateWebviewPanel(id, viewType, title, column)];
    }

    method Reveal(id: nat, column: Option<int>)
      modifies this
      ensures nextId == old(nextId)
      ensures calls == old(calls) + [HostCall.Reveal(id, column)]
    {
      calls := calls + [HostCall.Reveal(id, column)];
    }

    method DisposeWebview(id: nat)
      modifies this
      ensures nextId == old(nextId)
      ensures calls == old(calls) + [HostCall.DisposeWebview(id)]
    {
      calls := calls + [HostCall.DisposeWebview(id)];
    }

    method DisposeResource(d: Disposable)
      modifies this
      ensures nextId == old(nextId)
      ensures calls == old(calls) + [HostCall.DisposeResource(d)]
    {
      calls := calls + [HostCall.DisposeResource(d)];
    }
  }

  /** One panel instance: the host's webview it wraps and the resources it registered. */
  class SpringInitializrPanel {
    const webview: nat
    const extensionUri: string
    var disposables: seq<Disposable>

    /** The constructor subscribes to the disposal of its own webview, registering the subscription. */
    constructor (webview: nat, extensionUri: string)
      ensures this.webview == webview && this.extensionUri == extensionUri
      ensures disposables == [DidDisposeListener(webview)]
    {
      this.webview := webview;
      this.extensionUri := extensionUri;
      disposables := [DidDisposeListener(webview)];
    }

    /**
     * Clears the singleton slot, disposes the webview, then pops and
     * disposes every registered resource until the list is empty.
     */
    method Dispose(state: PanelState, host: Host)
      requires state.current == this && state.Consistent(host)
      modifies this, state, host
      ensures state.current == null
      ensures state.Valid(host)
      ensures disposables == []
      ensures host.nextId == old(host.nextId)
      ensures host.calls == old(host.calls) + [DisposeWebview(webview)] + ReleaseCalls(DisposalOrder(old(disposables)))
    {
      state.current := null;
      host.DisposeWebview(webview);
      ghost var start := host.calls;
      while |disposables| > 0
        invariant disposables == old(disposables)[..|disposables|]
        invariant host.calls == start + ReleaseCalls(DisposalOrder(old(disposables)[|disposables|..]))
        invariant host.nextId == old(host.nextId)
        invariant state.current == null
        decreases |disposables|
      {
        var n := |disposables|;
        var d := disposables[n - 1];
        disposables := disposables[..n - 1];
        host.DisposeResource(d);
        assert old(disposables)[n - 1..] == [d] + old(disposables)[n..];
        assert DisposalOrder(old(disposables)[n - 1..]) == DisposalOrder(old(disposables)[n..]) + [d];
      }
      assert old(disposables)[0..] == old(disposables);
      forall i | 0 <= i < |host.calls| && host.calls[i].CreateWebviewPanel?
        ensures DisposeWebview(host.calls[i].id) in host.calls
      {
        assert i < |old(host.calls)|;
        assert host.calls[i] == old(host.calls)[i];
        if host.calls[i].id != webview {
          assert DisposeWebview(host.calls[i].id) in old(host.calls);
        } else {
          assert host.calls[|old(host.calls)|] == DisposeWebview(webview);
        }
      }
    }
  }

  /** The singleton property: in a consistent state, the only open webview is the one in the slot. */
  lemma SingleLivePanel(state: PanelState, host: Host, id: nat)
    requires state.Consistent(host) && IsLive(host.calls, id)
    ensures state.current != null && state.current.webview == id
  {
    var i :| 0 <= i < |host.calls| && host.calls[i].CreateWebviewPanel? && host.calls[i].id == id;
  }

  /** The static slot `currentPanel`: at most one panel at a time. */
  class PanelState {
    var current: SpringInitializrPanel?

    constructor ()
      ensures current == null
    {
      current := null;
    }

    /**
     * The singleton invariant against the host: the log mentions only
     * numbers the host issued, and every webview ever created, except the one
     * of the panel in the slot, has been disposed.
     */
    ghost predicate Consistent(host: Host)
      reads this, current, host
    {
      && host.NumbersIssued()
      && (current != null ==> current.webview < host.nextId)
      && forall i :: 0 <= i < |host.calls| && host.calls[i].CreateWebviewPanel? ==>
           (current != null && host.calls[i].id == current.webview) || DisposeWebview(host.calls[i].id) in host.calls
    }

    /** Between requests, in addition, the panel in the slot wraps a webview that is still open. */
    ghost predicate Valid(host: Host)
      reads this, current, host
    {
      && Consistent(host)
      && (current != null ==> DisposeWebview(current.webview) !in host.calls)
    }

    /**
     * Reveals the existing panel in the active editor's column, or creates a
     * webview in that column (the first group when there is none) and puts a
     * new panel around it in the slot.
     */
    method CreateOrShow(extensionUri: string, activeEditor: Option<TextEditor>, host: Host)
      requires Valid(host)
      modifies this, host
      ensures Valid(host)
      ensures current != null
      ensures old(current) != null ==>
        && current == old(current)
        && host.nextId == old(host.nextId)
        && host.calls == old(host.calls) + [Reveal(current.webview, ActiveColumn(activeEditor))]
      ensures old(current) == null ==>
        && fresh(current)
        && current.webview == old(host.nextId)
        && current.extensionUri == extensionUri
        && current.disposables == [DidDisposeListener(current.webview)]
        && host.nextId == old(host.nextId) + 1
        && host.calls == old(host.calls) + [CreateWebviewPanel(current.webview, ViewType, Title, ColumnOrOne(ActiveColumn(activeEditor)))]
      // The new webview opens in the active editor's group, or in the first group without one.
      ensures (old(current) == null && activeEditor.Some? && activeEditor.value.viewColumn.Some?
               && activeEditor.value.viewColumn.value != 0) ==>
        host.calls[|old(host.calls)|].column == activeEditor.value.viewColumn.value
      ensures old(current) == null && (activeEditor.None? || activeEditor.value.viewColumn.None?) ==>
        host.calls[|old(host.calls)|].column == ColumnOne
    {
      var column := ActiveColumn(activeEditor);
      if current != null {
        host.Reveal(current.webview, column);
        return;
      }
      var id := host.CreateWebviewPanel(ViewType, Title, ColumnOrOne(column));
      current := new SpringInitializrPanel(id, extensionUri);
    }

    /**
     * Disposes the webview of the panel in the slot, if any, and empties the
     * slot. The host fires the webview's disposal listener during that
     * request, so the panel's own `Dispose` runs before the slot is cleared.
     */
    method Hide(host: Host)
      requires Valid(host)
      modifies this, current, host
      ensures Valid(host)
      ensures current == null
      ensures host.nextId == old(host.nextId)
      ensures old(current) != null ==>
        && old(current).disposables == []
        && host.calls == old(host.calls) + [DisposeWebview(old(current).webview), DisposeWebview(old(current).webview)]
             + ReleaseCalls(DisposalOrder(old(current.disposables)))
      ensures old(current) == null ==> host.calls == old(host.calls)
    {
      if current != null {
        var panel := current;
        host.DisposeWebview(panel.webview);
        panel.Dispose(this, host);
        current := null;
      }
    }

    /** Puts a new panel around a webview the host restored into the slot. */
    method Revive(webview: nat, extensionUri: string)
      modifies this
      ensures fresh(current)
      ensures current.webview == webview && current.extensionUri == extensionUri
      ensures current.disposables == [DidDisposeListener(webview)]
    {
      current := new SpringInitializrPanel(webview, extensionUri);
    }
  }

  /**
   * Running the start command twice: the first run creates the one panel
   * and the second only reveals it.
   */
  method StartTwice(extensionUri: string, editor: Option<TextEditor>) returns (calls: seq<HostCall>)
    ensures CreationCount(calls) == 1
    ensures |calls| == 2 && calls[0].CreateWebviewPanel? && calls[1] == Reveal(calls[0].id, ActiveColumn(editor))
  {
    var host := new Host();
    var state := new PanelState();
    state.CreateOrShow(extensionUri, editor, host);
    state.CreateOrShow(extensionUri, editor, host);
    calls := host.calls;
    assert calls == [] + [calls[0]] + [calls[1]];
    CreationCountAppend([] + [calls[0]], [calls[1]]);
  }

  /**
   * Close-and-reopen: hiding disposes the first webview and its listener and
   * empties the slot, so the next command creates a second webview, which is
   * then the only one open.
   */
  method StartHideStart(extensionUri: string, editor: Option<TextEditor>) returns (calls: seq<HostCall>)
    ensures |calls| == 5
    ensures calls[0] == CreateWebviewPanel(0, ViewType, Title, ColumnOrOne(ActiveColumn(editor)))
    ensures calls[1] == DisposeWebview(0) && calls[2] == DisposeWebview(0)
    ensures calls[3] == DisposeResource(DidDisposeListener(0))
    ensures calls[4] == CreateWebviewPanel(1, ViewType, Title, ColumnOrOne(ActiveColumn(editor)))
    ensures !IsLive(calls, 0) && IsLive(calls, 1)
  {
    var host := new Host();
    var state := new PanelState();
    state.CreateOrShow(extensionUri, editor, host);
    state.Hide(host);
    state.CreateOrShow(extensionUri, editor, host);
    calls := host.calls;
    assert calls[4].CreateWebviewPanel? && calls[4].id == 1;
    assert DisposeWebview(1) !in calls;
  }
}
