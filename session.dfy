/**
 * The state of one open project screen and the handlers that change it: the
 * message log and its local cache, the realtime channel guard, the editor's
 * file tree and tabs, the collaborator picker and the sandbox controller.
 *
 * Every external collaborator is reduced to what the screen sees of it: calls
 * on the realtime channel and on the sandbox runtime are appended to ordered
 * logs, tree saves to a list of persisted snapshots, and the outcome of each
 * call that may fail is a parameter of the handler that makes it.
 */
module ProjectSession {
  import opened Wrappers
  import opened Text
  import opened Messages
  import opened Workspace

  /** The sender id of the agent's messages. */
  const AgentId := "ai"

  /** The channel topic of chat messages. */
  const Topic := "project-message"

  const IsolationError := "WebContainer requires cross-origin isolation. Please ensure your server sends the following headers:\n- Cross-Origin-Embedder-Policy: require-corp\n- Cross-Origin-Opener-Policy: same-origin"

  /** Opaque handles of the sandbox runtime. */
  datatype Container = Container(id: nat)
  datatype Process = Process(id: nat)

  /** What the agent's message text parses to: the reply text and, when present, a whole new tree. */
  datatype AgentPayload = AgentPayload(text: string, fileTree: Option<Tree>)

  /** A runtime call that may throw: its value, or the message of the error it threw. */
  datatype Attempt<T> = Done(value: T) | Threw(message: string)

  /** The reply to `GET /projects/get-messages/:id`; `messages` is absent when the body lacks the field. */
  datatype FetchOutcome = Fetched(messages: Option<seq<Message>>) | FetchFailed

  /** Calls on the realtime channel, in the order the screen makes them. */
  datatype ChannelCall =
    | Connect(projectId: string)
    | Subscribe(topic: string)
    | Publish(topic: string, message: Message)
    | Disconnect

  /** Calls into the sandbox runtime, in the order the screen makes them. */
  datatype SandboxCall =
    | CreateContainer
    | Mount(tree: Tree)
    | Spawn(command: string, args: seq<string>)
    | Kill(process: Process)
    | ListenServerReady

  const InstallCall := Spawn("npm", ["install"])
  const StartCall := Spawn("npm", ["start"])

  /** How one channel call changes the number of open connections. */
  function ConnectionDelta(c: ChannelCall): int {
    match c
    case Connect(_) => 1
    case Disconnect => -1
    case _ => 0
  }

  /** Connections opened minus connections closed. */
  function OpenConnections(calls: seq<ChannelCall>): int {
    if calls == [] then 0
    else OpenConnections(calls[..|calls| - 1]) + ConnectionDelta(calls[|calls| - 1])
  }

  /** One more call changes the count of open connections by that call's delta. */
  lemma OpenConnectionsSnoc(a: seq<ChannelCall>, c: ChannelCall)
    ensures OpenConnections(a + [c]) == OpenConnections(a) + ConnectionDelta(c)
  {
    assert (a + [c])[..|a|] == a;
  }

  /** The first error a Run click runs into, if any: mount, then the install spawn, then the start spawn. */
  function RunFailure(mountError: Option<string>, install: Attempt<Process>, start: Attempt<Process>): Option<string> {
    if mountError.Some? then mountError
    else if install.Threw? then Some(install.message)
    else if start.Threw? then Some(start.message)
    else None
  }

  /**
   * The runtime calls one Run click makes on a present container: mount the
   * tree, spawn `npm install`, kill the previous run process if any, spawn
   * `npm start` and listen for `server-ready`, stopping after the first call
   * that throws.
   */
  function RunCalls(tree: Tree, previous: Option<Process>, mountError: Option<string>,
                    install: Attempt<Process>, start: Attempt<Process>): (r: seq<SandboxCall>)
    ensures |r| >= 1 && r[0] == Mount(tree)
    ensures |r| <= 5
  {
    [Mount(tree)] +
    if mountError.Some? then []
    else
      [InstallCall] +
      if install.Threw? then []
      else
        (if previous.Some? then [Kill(previous.value)] else []) + [StartCall] +
        (if start.Threw? then [] else [ListenServerReady])
  }

  /** `kill` of process `p` occurs once in `calls`, after every install spawn and before every start spawn. */
  predicate KilledBetween(calls: seq<SandboxCall>, p: Process) {
    exists k :: 0 <= k < |calls| && calls[k] == Kill(p) &&
      (forall i :: 0 <= i < |calls| && calls[i].Kill? ==> i == k) &&
      (forall i :: 0 <= i < |calls| && calls[i] == InstallCall ==> i < k) &&
      (forall i :: 0 <= i < |calls| && calls[i] == StartCall ==> k < i)
  }

  /**
   * Supersede: once the install spawn has gone through, a rerun kills the
   * previous run process exactly once, after `npm install` and before
   * `npm start`; with no previous process nothing is killed; and the tree is
   * mounted before anything is spawned.
   */
  lemma RunSupersedes(tree: Tree, previous: Option<Process>, mountError: Option<string>,
                      install: Attempt<Process>, start: Attempt<Process>)
    ensures RunCalls(tree, previous, mountError, install, start)[0] == Mount(tree)
    ensures mountError.None? && install.Done? && previous.Some? ==>
      KilledBetween(RunCalls(tree, previous, mountError, install, start), previous.value)
    ensures previous.None? ==> forall c :: c in RunCalls(tree, previous, mountError, install, start) ==> !c.Kill?
    ensures RunFailure(mountError, install, start).None? <==>
      RunCalls(tree, previous, mountError, install, start)[|RunCalls(tree, previous, mountError, install, start)| - 1] == ListenServerReady
  {
    var calls := RunCalls(tree, previous, mountError, install, start);
    if mountError.None? && install.Done? && previous.Some? {
      var p := previous.value;
      assert calls == [Mount(tree), InstallCall, Kill(p), StartCall] + (if start.Threw? then [] else [ListenServerReady]);
      assert calls[2] == Kill(p);
      assert KilledBetween(calls, p) by {
        forall i | 0 <= i < |calls| && calls[i].Kill? ensures i == 2 { }
        forall i | 0 <= i < |calls| && calls[i] == StartCall ensures 2 < i { }
        forall i | 0 <= i < |calls| && calls[i] == InstallCall ensures i < 2 { }
      }
    }
  }

  /** `!s.trim()`: the text is empty once trimmed, which is exactly when it is all whitespace. */
  method IsBlank(s: string) returns (blank: bool)
    ensures blank <==> AllWhitespace(s)
  {
    blank := Trim(s) == [];
    TrimEmptyIffBlank(s);
  }

  /** The screen's state, one object per open project. */
  class Session {
    const projectId: string
    /** The signed-in user. */
    const user: Sender

    /** The rendered conversation (`messages`). */
    var messages: seq<Message>
    /** The local storage entry `project_messages_<id>`. */
    var cache: seq<Message>
    /** The text in the message input (`message`). */
    var draft: string

    /** `socketInitialized.current`. */
    var socketInitialized: bool
    var channel: seq<ChannelCall>
    /** The `webContainer` value the message handler closed over when it was registered. */
    var subscribedContainer: Option<Container>

    var fileTree: Tree
    /** Every tree sent to `PUT /projects/update-file-tree`, in order. */
    var persisted: seq<Tree>
    var currentFile: Option<string>
    var openFiles: seq<string>
    /** `selectedUserId`, the users picked in the collaborator dialog. */
    var selectedUserIds: set<string>

    var webContainer: Option<Container>
    var webContainerError: Option<string>
    var isWebContainerSupported: bool
    var runProcess: Option<Process>
    /** Whether a `server-ready` listener has been registered on the container. */
    var listening: bool
    var iframeUrl: Option<string>
    var sandbox: seq<SandboxCall>

    /** Tabs are never repeated, and the guard keeps at most one channel connection open. */
    predicate Valid()
      reads this
    {
      && NoDuplicates(openFiles)
      && OpenConnections(channel) == (if socketInitialized then 1 else 0)
    }

    /** The screen as first rendered for a project whose cached log is `stored`. */
    constructor (projectId: string, user: Sender, stored: seq<Message>)
      ensures Valid()
      ensures this.projectId == projectId && this.user == user
      ensures messages == [] && cache == stored && draft == ""
      ensures !socketInitialized && channel == [] && subscribedContainer == None
      ensures fileTree == map[] && persisted == [] && currentFile == None && openFiles == []
      ensures selectedUserIds == {}
      ensures webContainer == None && webContainerError == None && isWebContainerSupported
      ensures runProcess == None && !listening && iframeUrl == None && sandbox == []
    {
      this.projectId := projectId;
      this.user := user;
      messages, cache, draft := [], stored, "";
      socketInitialized, channel, subscribedContainer := false, [], None;
      fileTree, persisted, currentFile, openFiles := map[], [], None, [];
      selectedUserIds := {};
      webContainer, webContainerError, isWebContainerSupported := None, None, true;
      runProcess, listening, iframeUrl, sandbox := None, false, None, [];
    }

    /**
     * The mount effect's socket part: connect and subscribe only when no
     * connection is open yet; the handler keeps the `webContainer` of that moment.
     */
    method Open()
      requires Valid()
      modifies this`socketInitialized, this`channel, this`subscribedContainer
      ensures Valid() && socketInitialized
      ensures old(socketInitialized) ==> channel == old(channel) && subscribedContainer == old(subscribedContainer)
      ensures !old(socketInitialized) ==>
        channel == old(channel) + [Connect(projectId), Subscribe(Topic)] && subscribedContainer == webContainer
    {
      if !socketInitialized {
        OpenConnectionsSnoc(channel, Connect(projectId));
        OpenConnectionsSnoc(channel + [Connect(projectId)], Subscribe(Topic));
        channel := channel + [Connect(projectId)];
        socketInitialized := true;
        channel := channel + [Subscribe(Topic)];
        subscribedContainer := webContainer;
      }
    }

    /** The effect's cleanup: disconnect only an open connection. */
    method Close()
      requires Valid()
      modifies this`socketInitialized, this`channel
      ensures Valid() && !socketInitialized
      ensures channel == old(channel) + (if old(socketInitialized) then [Disconnect] else [])
    {
      if socketInitialized {
        OpenConnectionsSnoc(channel, Disconnect);
        channel := channel + [Disconnect];
        socketInitialized := false;
      }
    }

    /** First half of `fetchProjectMessages`: show the cached log at once, if it has anything. */
    method BeginFetch() returns (cached: seq<Message>)
      modifies this`messages
      ensures cached == cache
      ensures messages == if cached != [] then cached else old(messages)
    {
      cached := cache;
      if |cached| > 0 {
        messages := cached;
      }
    }

    /**
     * Second half of `fetchProjectMessages`, when the server has answered:
     * show and cache the merge of the earlier snapshot with the server's log,
     * or, on failure, keep what is shown unless the snapshot was empty.
     */
    method CompleteFetch(cached: seq<Message>, outcome: FetchOutcome)
      modifies this`messages, this`cache
      ensures outcome.Fetched? ==>
        var server := if outcome.messages.Some? then outcome.messages.value else [];
        messages == Merge(cached, server) && cache == messages
      ensures outcome.FetchFailed? ==>
        cache == old(cache) && messages == (if cached == [] then [] else old(messages))
    {
      match outcome
      case Fetched(list) =>
        var server := if list.Some? then list.value else [];
        var merged := MergeMessages(cached, server);
        messages := merged;
        cache := merged;
      case FetchFailed =>
        if |cached| == 0 {
          messages := [];
        }
    }

    /** The message input's `onChange`. */
    method TypeDraft(text: string)
      modifies this`draft
      ensures draft == text
    {
      draft := text;
    }

    /**
     * `send`: a blank draft changes nothing; otherwise exactly one message from
     * the user, stamped `now`, is appended, the cache is written with the new
     * log, the same message is published and the input is cleared.
     */
    method Send(now: int)
      requires Valid()
      modifies this`messages, this`cache, this`channel, this`draft
      ensures Valid()
      ensures AllWhitespace(old(draft)) ==>
        messages == old(messages) && cache == old(cache) && channel == old(channel) && draft == old(draft)
      ensures !AllWhitespace(old(draft)) ==>
        var sent := Message(old(draft), user, Some(now));
        && messages == old(messages) + [sent]
        && cache == messages
        && channel == old(channel) + [Publish(Topic, sent)]
        && draft == ""
    {
      var blank := IsBlank(draft);
      if blank {
        return;
      }
      var sent := Message(draft, user, Some(now));
      messages := messages + [sent];
      cache := messages;
      OpenConnectionsSnoc(channel, Publish(Topic, sent));
      channel := channel + [Publish(Topic, sent)];
      draft := "";
    }

    /**
     * The `project-message` handler. An agent message whose text does not parse
     * (`parsed == None`) throws before anything changes. A parsed one mounts its
     * tree if the handler's container is present, replaces the whole tree when
     * it carries one, and is appended and cached. A message from the user is
     * dropped; one from anybody else is appended and cached.
     */
    method Receive(data: Message, parsed: Option<AgentPayload>)
      requires Valid() && socketInitialized
      modifies this`messages, this`cache, this`fileTree, this`sandbox
      ensures Valid()
      ensures data.sender.id == AgentId && parsed.None? ==>
        messages == old(messages) && cache == old(cache) && fileTree == old(fileTree) && sandbox == old(sandbox)
      ensures data.sender.id == AgentId && parsed.Some? ==>
        var tree := parsed.value.fileTree;
        && messages == old(messages) + [data]
        && cache == messages
        && fileTree == (if tree.Some? then tree.value else old(fileTree))
        && sandbox == old(sandbox) + (if subscribedContainer.Some? && tree.Some? then [Mount(tree.value)] else [])
      ensures data.sender.id != AgentId && data.sender.id == user.id ==>
        messages == old(messages) && cache == old(cache) && fileTree == old(fileTree) && sandbox == old(sandbox)
      ensures data.sender.id != AgentId && data.sender.id != user.id ==>
        messages == old(messages) + [data] && cache == messages && fileTree == old(fileTree) && sandbox == old(sandbox)
    {
      if data.sender.id == AgentId {
        if parsed.None? {
          return;
        }
        var payload := parsed.value;
        if subscribedContainer.Some? && payload.fileTree.Some? {
          sandbox := sandbox + [Mount(payload.fileTree.value)];
        }
        if payload.fileTree.Some? {
          fileTree := payload.fileTree.value;
        }
        messages := messages + [data];
        cache := messages;
      } else if data.sender.id != user.id {
        messages := messages + [data];
        cache := messages;
      }
    }

    /** A click on a name in the explorer: it becomes the current file and gets a tab if it has none. */
    method ClickExplorerFile(file: string)
      requires Valid()
      modifies this`currentFile, this`openFiles
      ensures Valid()
      ensures currentFile == Some(file)
      ensures openFiles == OpenTab(old(openFiles), file)
    {
      currentFile := Some(file);
      openFiles := OpenTab(openFiles, file);
    }

    /** A click on an open tab. */
    method ClickTab(file: string)
      modifies this`currentFile
      ensures currentFile == Some(file)
    {
      currentFile := Some(file);
    }

    /**
     * The editor's `onBlur`, reachable only while the current file is shown:
     * the current file now holds the edited text, and the tree shown is the
     * tree sent for saving.
     */
    method EditCurrentFile(updated: string)
      requires currentFile.Some? && currentFile.value in fileTree
      modifies this`fileTree, this`persisted
      ensures fileTree == WithFileContents(old(fileTree), currentFile.value, updated)
      ensures persisted == old(persisted) + [fileTree]
    {
      var ft := WithFileContents(fileTree, currentFile.value, updated);
      fileTree := ft;
      persisted := persisted + [ft];
    }

    /** `handleUserClick`. */
    method ClickUser(id: string)
      modifies this`selectedUserIds
      ensures selectedUserIds == Toggle(old(selectedUserIds), id)
    {
      selectedUserIds := Toggle(selectedUserIds, id);
    }

    /**
     * `addCollaborators`: the picked ids are sent; once the server accepts
     * them the selection is emptied, and a refusal leaves it as it was.
     */
    method AddCollaborators(accepted: bool) returns (sent: set<string>)
      modifies this`selectedUserIds
      ensures sent == old(selectedUserIds)
      ensures selectedUserIds == if accepted then {} else old(selectedUserIds)
    {
      sent := selectedUserIds;
      if accepted {
        selectedUserIds := {};
      }
    }

    /**
     * The answer of `fetchProjectData`: the project's saved tree replaces the
     * whole tree, or the empty tree when the project has none.
     */
    method ProjectLoaded(tree: Option<Tree>)
      modifies this`fileTree
      ensures tree.Some? ==> fileTree == tree.value
      ensures tree.None? ==> fileTree == map[]
    {
      fileTree := if tree.Some? then tree.value else map[];
    }

    /**
     * `initializeWebContainer`: without cross-origin isolation the container is
     * never requested and the subsystem is marked unsupported; otherwise it is
     * requested, and either stored or the failure is recorded.
     */
    method InitializeContainer(isolated: bool, created: Attempt<Container>)
      modifies this`webContainer, this`webContainerError, this`isWebContainerSupported, this`sandbox
      ensures !isolated ==>
        && sandbox == old(sandbox)
        && webContainer == old(webContainer)
        && webContainerError == Some(IsolationError)
        && !isWebContainerSupported
      ensures isolated ==> sandbox == old(sandbox) + [CreateContainer]
      ensures isolated && created.Done? ==>
        && webContainer == Some(created.value)
        && webContainerError == None
        && isWebContainerSupported == old(isWebContainerSupported)
      ensures isolated && created.Threw? ==>
        && webContainer == old(webContainer)
        && webContainerError == Some("Failed to initialize WebContainer: " + created.message)
        && !isWebContainerSupported
    {
      if !isolated {
        webContainerError := Some(IsolationError);
        isWebContainerSupported := false;
        return;
      }
      sandbox := sandbox + [CreateContainer];
      match created
      case Done(container) =>
        webContainer := Some(container);
        webContainerError := None;
      case Threw(message) =>
        webContainerError := Some("Failed to initialize WebContainer: " + message);
        isWebContainerSupported := false;
    }

    /**
     * A click on Run. The button is only rendered while the sandbox is
     * supported, and without a container the click does nothing. Otherwise the
     * calls of `RunCalls` are made; if all succeed the started process becomes
     * the run process, else the first error is recorded and the run process
     * handle is left as it was.
     */
    method Run(mountError: Option<string>, install: Attempt<Process>, start: Attempt<Process>)
      modifies this`sandbox, this`runProcess, this`webContainerError, this`listening
      ensures !isWebContainerSupported || webContainer.None? ==>
        sandbox == old(sandbox) && runProcess == old(runProcess) &&
        webContainerError == old(webContainerError) && listening == old(listening)
      ensures isWebContainerSupported && webContainer.Some? ==>
        var failure := RunFailure(mountError, install, start);
        && sandbox == old(sandbox) + RunCalls(fileTree, old(runProcess), mountError, install, start)
        && runProcess == (if failure.None? then Some(start.value) else old(runProcess))
        && webContainerError == (if failure.None? then old(webContainerError) else Some("Error running project: " + failure.value))
        && listening == (old(listening) || failure.None?)
    {
      if !isWebContainerSupported || webContainer.None? {
        return;
      }
      sandbox := sandbox + [Mount(fileTree)];
      if mountError.Some? {
        webContainerError := Some("Error running project: " + mountError.value);
        return;
      }
      sandbox := sandbox + [InstallCall];
      if install.Threw? {
        webContainerError := Some("Error running project: " + install.message);
        return;
      }
      if runProcess.Some? {
        sandbox := sandbox + [Kill(runProcess.value)];
      }
      sandbox := sandbox + [StartCall];
      if start.Threw? {
        webContainerError := Some("Error running project: " + start.message);
        return;
      }
      runProcess := Some(start.value);
      sandbox := sandbox + [ListenServerReady];
      listening := true;
    }

    /** The container's `server-ready` event: the preview address follows it once a listener exists. */
    method ServerReady(port: nat, url: string)
      modifies this`iframeUrl
      ensures iframeUrl == if listening then Some(url) else old(iframeUrl)
    {
      if listening {
        iframeUrl := Some(url);
      }
    }
  }

  /**
   * Self-echo suppression: the user sends a message and the channel echoes it
   * back under the user's id; the log holds it once.
   */
  method SelfEchoScenario(projectId: string, user: Sender, text: string, now: int)
    returns (log: seq<Message>, published: seq<ChannelCall>)
    requires !AllWhitespace(text) && user.id != AgentId
    ensures log == [Message(text, user, Some(now))]
    ensures published == [Connect(projectId), Subscribe(Topic), Publish(Topic, Message(text, user, Some(now)))]
  {
    var s := new Session(projectId, user, []);
    s.Open();
    s.TypeDraft(text);
    s.Send(now);
    s.Receive(Message(text, user, Some(now)), None);
    log, published := s.messages, s.channel;
  }

  /** The socket guard: running the mount effect twice connects once. */
  method OpenTwiceScenario(projectId: string, user: Sender) returns (calls: seq<ChannelCall>)
    ensures calls == [Connect(projectId), Subscribe(Topic)]
  {
    var s := new Session(projectId, user, []);
    s.Open();
    s.Open();
    calls := s.channel;
  }

  /** Precondition gating: without isolation no container is requested and the sandbox is unsupported. */
  method NotIsolatedScenario(projectId: string, user: Sender, created: Attempt<Container>)
    returns (calls: seq<SandboxCall>, supported: bool, error: Option<string>)
    ensures calls == [] && !supported && error == Some(IsolationError)
  {
    var s := new Session(projectId, user, []);
    s.InitializeContainer(false, created);
    calls, supported, error := s.sandbox, s.isWebContainerSupported, s.webContainerError;
  }

  /** Two successful runs: the second kills the first run process between its install and start spawns. */
  method RerunScenario(projectId: string, user: Sender, c: Container, i1: Process, r1: Process, i2: Process, r2: Process)
    returns (calls: seq<SandboxCall>, current: Option<Process>)
    ensures calls == [CreateContainer,
                      Mount(map[]), InstallCall, StartCall, ListenServerReady,
                      Mount(map[]), InstallCall, Kill(r1), StartCall, ListenServerReady]
    ensures current == Some(r2)
  {
    var s := new Session(projectId, user, []);
    s.InitializeContainer(true, Done(c));
    s.Run(None, Done(i1), Done(r1));
    s.Run(None, Done(i2), Done(r2));
    calls, current := s.sandbox, s.runProcess;
  }

  /** A session whose project tree has loaded, whose container is ready and in which `path` is open. */
  method LoadedSession(projectId: string, user: Sender, tree: Tree, path: string, c: Container)
    returns (s: Session)
    requires path in tree
    ensures fresh(s) && s.Valid()
    ensures s.fileTree == tree && s.currentFile == Some(path) && s.persisted == []
    ensures s.webContainer == Some(c) && s.isWebContainerSupported
    ensures s.sandbox == [CreateContainer] && s.runProcess == None
  {
    s := new Session(projectId, user, []);
    s.ProjectLoaded(Some(tree));
    s.InitializeContainer(true, Done(c));
    assert s.openFiles == [] && s.channel == [] && !s.socketInitialized;
    s.ClickExplorerFile(path);
  }

  /**
   * The project's saved tree, once loaded and edited in the open file, is the
   * tree that is sent for saving and the tree a Run mounts.
   */
  method LoadEditRunScenario(projectId: string, user: Sender, tree: Tree, path: string, text: string,
                             c: Container, i: Process, r: Process)
    returns (calls: seq<SandboxCall>, saved: seq<Tree>)
    requires path in tree
    ensures saved == [tree[path := File(text)]]
    ensures calls == [CreateContainer, Mount(tree[path := File(text)]), InstallCall, StartCall, ListenServerReady]
  {
    var s := LoadedSession(projectId, user, tree, path, c);
    s.EditCurrentFile(text);
    var edited := WithFileContents(tree, path, text);
    assert edited == tree[path := File(text)];
    assert RunCalls(edited, None, None, Done(i), Done(r)) == [Mount(edited), InstallCall, StartCall, ListenServerReady];
    s.Run(None, Done(i), Done(r));
    calls, saved := s.sandbox, s.persisted;
  }
}
