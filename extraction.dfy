/**
 * The extraction workflow that an intercepted download schedules: read the
 * project name, prompt for a folder, refuse to overwrite an existing
 * project folder, download and unpack the archive, and open the result in
 * a new window.  The dialog's answer, `fs.existsSync`, `path.join` and the
 * success of the download are inputs; what the workflow asks the host to
 * do is its result, one event per host call.
 */
module Extraction {
  import opened Wrappers
  import opened ProjectNameChain
  import DefaultFolder

  const StartSpringIo := "https://start.spring.io"

  datatype Event =
    | PromptForFolder(defaultFolder: string, title: string)   // `showOpenDialog`, folders only, one at most
    | ShowError(message: string)                               // `showErrorMessage`
    | Download(source: string, destination: string)           // `download(source, destination, {extract: true})`
    | OpenInNewWindow(folder: string)                          // `vscode.openFolder` with `forceNewWindow`

  /** What the workflow reads from its surroundings. */
  datatype Environment = Environment(
    setting: Option<string>,             // `projects-folder`, `None` when unset
    tmpdir: string,                      // `os.tmpdir()`
    homedir: string,                     // `os.homedir()`
    pathExists: string -> bool,             // `fs.existsSync`
    joinPath: (string, string) -> string) // `path.join`

  /** The folder the dialog returned: `None` for `undefined` and for an empty selection. */
  function ChosenFolder(picked: Option<seq<string>>): Option<string> {
    if picked.Some? && |picked.value| > 0 then Some(picked.value[0]) else None
  }

  function PromptTitle(name: string): string {
    "Extract project " + name + " to Folder"
  }

  function ConflictMessage(name: string, folder: string): string {
    "Project " + name + " folder already exists in " + folder
  }

  /** The archive is fetched from the remote origin at the intercepted path and query. */
  function DownloadSource(url: string): string {
    StartSpringIo + url
  }

  ghost predicate Downloads(events: seq<Event>) {
    exists i :: 0 <= i < |events| && events[i].Download?
  }

  ghost predicate Reports(events: seq<Event>) {
    exists i :: 0 <= i < |events| && events[i].ShowError?
  }

  ghost predicate Opens(events: seq<Event>) {
    exists i :: 0 <= i < |events| && events[i].OpenInNewWindow?
  }

  /**
   * Lines 55-69: what happens once the dialog has answered `picked`, given
   * whether the download succeeded (`downloaded`; a failed download is
   * swallowed).
   */
  function AfterPrompt(url: string, name: string, picked: Option<seq<string>>, env: Environment, downloaded: bool): (events: seq<Event>)
    // A cancelled dialog, or one that returned no folder, ends the workflow silently.
    ensures picked.None? || picked.value == [] ==> events == []
    // The conflict message is the only user-visible failure, and it excludes a download.
    ensures Reports(events) <==>
      ChosenFolder(picked).Some? && env.pathExists(env.joinPath(ChosenFolder(picked).value, name))
    ensures Reports(events) ==> events == [ShowError(ConflictMessage(name, ChosenFolder(picked).value))]
    // A download happens exactly when nothing is in the way, from the remote origin into the chosen folder.
    ensures Downloads(events) <==>
      ChosenFolder(picked).Some? && !env.pathExists(env.joinPath(ChosenFolder(picked).value, name))
    ensures Downloads(events) ==> events[0] == Download(DownloadSource(url), ChosenFolder(picked).value)
    // The new project is opened only after a successful download, and it is the joined path.
    ensures Opens(events) <==> Downloads(events) && downloaded
    // A failed download is swallowed: nothing follows it.
    ensures Downloads(events) && !downloaded ==> events == [Download(DownloadSource(url), ChosenFolder(picked).value)]
    ensures Opens(events) ==> events == events[..1] + [OpenInNewWindow(env.joinPath(ChosenFolder(picked).value, name))]
  {
    match ChosenFolder(picked)
    case None => []
    case Some(folder) =>
      if env.pathExists(env.joinPath(folder, name)) then
        var events := [ShowError(ConflictMessage(name, folder))];
        assert events[0].ShowError?;
        events
      else
        var events := [Download(DownloadSource(url), folder)]
          + (if downloaded then [OpenInNewWindow(env.joinPath(folder, name))] else []);
        assert events[0].Download?;
        assert downloaded ==> events[1].OpenInNewWindow?;
        events
  }

  /**
   * Lines 28-69 for the project name `name` read from the intercepted
   * `url` and the dialog's starting folder `defaultFolder`: nothing for an
   * empty name, otherwise the folder dialog and then what its answer
   * leads to.
   */
  function Extract(url: string, name: string, defaultFolder: string, env: Environment,
                   picked: Option<seq<string>>, downloaded: bool): (events: seq<Event>)
    ensures name == "" <==> events == []
    ensures events != [] ==> events[0] == PromptForFolder(defaultFolder, PromptTitle(name))
    ensures events != [] ==> events[1..] == AfterPrompt(url, name, picked, env, downloaded)
    // Nothing but the dialog happens without a name and a chosen folder.
    ensures Reports(events) <==> name != "" && Reports(AfterPrompt(url, name, picked, env, downloaded))
    ensures Downloads(events) <==> name != "" && Downloads(AfterPrompt(url, name, picked, env, downloaded))
    ensures Opens(events) <==> name != "" && Opens(AfterPrompt(url, name, picked, env, downloaded))
  {
    if name == "" then []
    else
      var prompt := PromptForFolder(defaultFolder, PromptTitle(name));
      var rest := AfterPrompt(url, name, picked, env, downloaded);
      PromptChangesNoOutcome(prompt, rest);
      [prompt] + rest
  }

  /** The dialog event in front neither reports, downloads nor opens anything. */
  lemma PromptChangesNoOutcome(prompt: Event, rest: seq<Event>)
    requires prompt.PromptForFolder?
    ensures Reports([prompt] + rest) == Reports(rest)
    ensures Downloads([prompt] + rest) == Downloads(rest)
    ensures Opens([prompt] + rest) == Opens(rest)
  {
    var events := [prompt] + rest;
    forall i | 0 <= i < |rest| ensures events[i + 1] == rest[i] {}
    if Reports(events) {
      var i :| 0 <= i < |events| && events[i].ShowError?;
      assert rest[i - 1].ShowError?;
    }
    if Downloads(events) {
      var i :| 0 <= i < |events| && events[i].Download?;
      assert rest[i - 1].Download?;
    }
    if Opens(events) {
      var i :| 0 <= i < |events| && events[i].OpenInNewWindow?;
      assert rest[i - 1].OpenInNewWindow?;
    }
  }

  /** Lines 27-69: the whole workflow for the intercepted `url`. */
  function Workflow(url: string, env: Environment, picked: Option<seq<string>>, downloaded: bool): seq<Event> {
    var defaultFolder := DefaultFolder.Resolve(env.setting, env.tmpdir, env.homedir);
    Extract(url, ProjectName(url), defaultFolder, env, picked, downloaded)
  }

  /**
   * What the whole workflow does, by the project name and the dialog's
   * answer: an empty name or a cancelled dialog is a silent abort, an
   * existing project folder is reported and never overwritten, and the new
   * project is opened only when its download succeeded.
   */
  lemma WorkflowOutcomes(url: string, env: Environment, picked: Option<seq<string>>, downloaded: bool)
    ensures var events := Workflow(url, env, picked, downloaded);
      var name := ProjectName(url);
      var chosen := ChosenFolder(picked);
      && (name == "" || chosen.None? ==> !Reports(events) && !Downloads(events) && !Opens(events))
      && (Reports(events) <==> name != "" && chosen.Some? && env.pathExists(env.joinPath(chosen.value, name)))
      && (Downloads(events) <==> name != "" && chosen.Some? && !env.pathExists(env.joinPath(chosen.value, name)))
      && (Opens(events) <==> Downloads(events) && downloaded)
  {
    var name := ProjectName(url);
    var defaultFolder := DefaultFolder.Resolve(env.setting, env.tmpdir, env.homedir);
    var events := Extract(url, name, defaultFolder, env, picked, downloaded);
    assert Workflow(url, env, picked, downloaded) == events;
  }

  /**
   * A successful run: a non-empty project name, a folder chosen that holds
   * no folder of that name, and a download that succeeds.
   */
  lemma SuccessfulRun(url: string, name: string, defaultFolder: string, env: Environment, folder: string)
    requires name != "" && !env.pathExists(env.joinPath(folder, name))
    ensures Extract(url, name, defaultFolder, env, Some([folder]), true) == [
      PromptForFolder(defaultFolder, PromptTitle(name)),
      Download(StartSpringIo + url, folder),
      OpenInNewWindow(env.joinPath(folder, name))]
  {
    assert ChosenFolder(Some([folder])) == Some(folder);
  }

  /**
   * The end-to-end scenario: the `demo` Maven project, the folder
   * `/tmp/out` chosen, no `demo` folder in it yet, and a download that
   * succeeds.  The dialog is shown, the archive at the same path on
   * start.spring.io is unpacked into `/tmp/out`, and the project folder is
   * opened in a new window.
   */
  lemma DemoScenario(env: Environment)
    requires !env.pathExists(env.joinPath("/tmp/out", "demo"))
    ensures Workflow(ExampleUrl, env, Some(["/tmp/out"]), true) == [
      PromptForFolder(DefaultFolder.Resolve(env.setting, env.tmpdir, env.homedir), PromptTitle("demo")),
      Download(StartSpringIo + ExampleUrl, "/tmp/out"),
      OpenInNewWindow(env.joinPath("/tmp/out", "demo"))]
  {
    ProjectNameExample();
    SuccessfulRun(ExampleUrl, "demo", DefaultFolder.Resolve(env.setting, env.tmpdir, env.homedir), env, "/tmp/out");
  }
}
