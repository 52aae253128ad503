/**
 * `Base.GameManager` (GameManager.cs): the application state, the
 * connection status and the delayed opening of a scene or a project that
 * arrives before the object types' actions are loaded.
 *
 * Every call the manager makes into a collaborator (the scene and project
 * managers, `ActionsManager.UpdateObjects`, the websocket, notifications,
 * its own events) is appended to `effects`; the answers it reads back
 * (`ActionsReady`, the outcome of each remote call and of creating a scene
 * or a project) are a `Services` parameter. Each method is stated as a
 * function of the manager's `Snapshot` before the call.
 */
module GameManager {
  import W = Wrappers
  import opened Records

  /** `ConnectionStatusEnum`; `Connected` is its first member, so the field's default. */
  datatype ConnectionStatus = Connected | Disconnected | Connecting

  /** `GameStateEnum`; `Disconnected` is its first member, so the field's default. */
  datatype GameState =
    | Disconnected | MainScreen | SceneEditor | ProjectEditor | PackageRunning
    | LoadingScene | LoadingProject | LoadingPackage
    | ClosingScene | ClosingProject | ClosingPackage | None

  /**
   * The outcome of `SceneManager.CreateScene` or `ProjectManager.CreateProject`:
   * `Threw` is an exception other than `TimeoutException`, which the
   * manager does not catch (`ArgumentException` for a repeated id,
   * `NullReferenceException` for missing parameters), so its method ends there.
   */
  datatype Creation = Created | Failed | TimedOut | Threw(error: W.Exception)

  /** The answers the manager reads from its collaborators while a call runs. */
  datatype Services = Services(
    actionsReady: bool,                                      // ActionsManager.ActionsReady
    sceneCreated: Creation,
    projectCreated: Creation,
    systemInfoOk: bool,                                      // GetSystemInfo did not fail
    registerOk: bool,                                        // RegisterUser did not fail
    objectTypes: W.Option<seq<ObjectTypeMeta>>)              // GetObjectTypes, None when it failed

  /** A call the manager makes into the rest of the application, in the order it makes them. */
  datatype Effect =
    | GameStateChanged(state: GameState)                     // OnGameStateChanged
    | ConnectedToServer                                      // OnConnectedToServer
    | DisconnectedFromServer                                 // OnDisconnectedFromServer
    | CloseScene                                             // OnCloseScene
    | CloseProject                                           // OnCloseProject
    | GetSystemInfo
    | RegisterUser
    | GetObjectTypes
    | UpdateObjects(metas: seq<ObjectTypeMeta>)              // ActionsManager.UpdateObjects
    | WebsocketDisconnect                                    // WebsocketManager.DisconnectFromSever
    | CreateScene(sceneArg: Scene)                           // SceneManager.CreateScene
    | DestroyScene                                           // SceneManager.DestroyScene
    | CreateProject(projectArg: Project)                     // ProjectManager.CreateProject
    | DestroyProject                                         // ProjectManager.DestroyProject
    | ConnectionFailed                                       // the "Connection failed" notification
    | SaveLogs(logScene: Scene, logProject: W.Option<Project>, message: string)

  /** The manager's fields, with the calls made so far. */
  datatype Snapshot = Snapshot(
    gameState: GameState,
    connectionStatus: ConnectionStatus,
    newProject: W.Option<Project>,
    newScene: W.Option<Scene>,
    openProject: bool,
    openScene: bool,
    effects: seq<Effect>)

  /** The fields' defaults: the first member of each enum, no stash, no request. */
  const Initial: Snapshot := Snapshot(GameState.Disconnected, ConnectionStatus.Connected, W.None, W.None, false, false, [])

  function Log(g: Snapshot, e: Effect): Snapshot {
    g.(effects := g.effects + [e])
  }

  /** The connection status, the stashes and the delayed-open requests. */
  function Pending(g: Snapshot): (ConnectionStatus, W.Option<Project>, W.Option<Scene>, bool, bool) {
    (g.connectionStatus, g.newProject, g.newScene, g.openProject, g.openScene)
  }

  // ---------------------------------------------------------------------
  // The methods as functions of the snapshot

  /** `SetGameState(value)`. */
  function SetGameStateSpec(g: Snapshot, value: GameState): Snapshot {
    Log(g.(gameState := value), GameStateChanged(value))
  }

  /** `OnConnectionStatusChanged(Disconnected)`: the status is set and the project and scene are destroyed. */
  function DisconnectedSpec(g: Snapshot): Snapshot {
    Log(Log(Log(g.(connectionStatus := ConnectionStatus.Disconnected), DisconnectedFromServer), DestroyProject), DestroyScene)
  }

  /** `ConnectionStatus = Disconnected`. */
  function SetDisconnectedSpec(g: Snapshot): Snapshot {
    if g.connectionStatus == ConnectionStatus.Disconnected then g else DisconnectedSpec(g)
  }

  /** `DisconnectFromSever()`. */
  function DisconnectSpec(g: Snapshot): Snapshot {
    Log(SetDisconnectedSpec(g), WebsocketDisconnect)
  }

  /** `UpdateActionObjects()`: the types are fetched and handed over; a failed request disconnects. */
  function UpdateActionObjectsSpec(g: Snapshot, s: Services): Snapshot {
    var g1 := Log(g, GetObjectTypes);
    if s.objectTypes.Some? then Log(g1, UpdateObjects(s.objectTypes.value)) else DisconnectSpec(g1)
  }

  /**
   * `OnConnectionStatusChanged(Connected)`: system info and registration
   * are requested, and a failure of either disconnects and notifies;
   * otherwise the types are updated and the status becomes `Connected`,
   * even when updating them failed and disconnected.
   */
  function ConnectedSpec(g: Snapshot, s: Services): Snapshot {
    var g1 := Log(g, GetSystemInfo);
    if !s.systemInfoOk then Log(DisconnectSpec(g1), ConnectionFailed)
    else
      var g2 := Log(g1, RegisterUser);
      if !s.registerOk then Log(DisconnectSpec(g2), ConnectionFailed)
      else UpdateActionObjectsSpec(Log(g2, ConnectedToServer), s).(connectionStatus := ConnectionStatus.Connected)
  }

  /** `ConnectionStatus = value`: only a different value runs `OnConnectionStatusChanged`, which ignores `Connecting`. */
  function SetConnectionStatusSpec(g: Snapshot, value: ConnectionStatus, s: Services): Snapshot {
    if g.connectionStatus == value then g
    else match value
      case Connected => ConnectedSpec(g, s)
      case Disconnected => DisconnectedSpec(g)
      case Connecting => g
  }

  /** `SceneOpened(scene)`. */
  function SceneOpenedSpec(g: Snapshot, scene: Scene, s: Services): Snapshot {
    var g1 := SetGameStateSpec(g, LoadingScene);
    if !s.actionsReady then g1.(newScene := W.Some(scene), openScene := true)
    else
      var g2 := Log(g1, CreateScene(scene));
      if s.sceneCreated == Created then SetGameStateSpec(g2, SceneEditor)
      else if s.sceneCreated.Threw? then g2
      else Log(g2, SaveLogs(scene, W.None, "Failed to initialize scene"))
  }

  /** `ProjectOpened(scene, project)`. */
  function ProjectOpenedSpec(g: Snapshot, scene: Scene, project: Project, s: Services): Snapshot {
    if !s.actionsReady then g.(newProject := W.Some(project), newScene := W.Some(scene), openProject := true)
    else
      var g1 := if g.gameState == SceneEditor then Log(g, DestroyScene) else g;
      var g2 := Log(SetGameStateSpec(g1, LoadingProject), CreateScene(scene));
      match s.sceneCreated
      case Failed => Log(g2, SaveLogs(scene, W.Some(project), "Failed to initialize scene"))
      case TimedOut => Log(g2, SaveLogs(scene, W.Some(project), "Failed to initialize project"))
      case Threw(_) => g2
      case Created =>
        var g3 := Log(g2, CreateProject(project));
        if s.projectCreated == Created then SetGameStateSpec(g3, ProjectEditor)
        else if s.projectCreated.Threw? then g3
        else Log(g3, SaveLogs(scene, W.Some(project), "Failed to initialize project"))
  }

  /** `Update()`: one frame's check for a delayed opening. */
  function UpdateSpec(g: Snapshot, s: Services): Snapshot {
    if g.connectionStatus != ConnectionStatus.Connected then g
    else if g.openScene then
      var g1 := g.(openScene := false);
      if g.newScene.Some? then SceneOpenedSpec(g1.(newScene := W.None), g.newScene.value, s) else g1
    else if g.openProject then
      var g1 := g.(openProject := false);
      if g.newProject.Some? && g.newScene.Some? then
        ProjectOpenedSpec(g1.(newScene := W.None, newProject := W.None), g.newScene.value, g.newProject.value, s)
      else g1
    else g
  }

  /** `SceneClosed()`. */
  function SceneClosedSpec(g: Snapshot): Snapshot {
    SetGameStateSpec(Log(Log(SetGameStateSpec(g, ClosingScene), DestroyScene), CloseScene), None)
  }

  /** `ProjectClosed()`. */
  function ProjectClosedSpec(g: Snapshot): Snapshot {
    SetGameStateSpec(Log(Log(Log(SetGameStateSpec(g, ClosingProject), DestroyProject), DestroyScene), CloseProject), None)
  }

  // ---------------------------------------------------------------------
  // What the source promises about them

  /** `SetGameState(v)` sets the state to v and touches no other field. */
  lemma {:induction false} SetGameStateSets(g: Snapshot, v: GameState)
    ensures SetGameStateSpec(g, v).gameState == v
    ensures SetGameStateSpec(g, v).(gameState := g.gameState, effects := g.effects) == g
  {
  }

  /**
   * A scene that arrives before the actions are ready moves the state to
   * `LoadingScene`, is stashed with the request to open it, and creates nothing.
   */
  lemma {:induction false} SceneOpenedDelays(g: Snapshot, scene: Scene, s: Services)
    requires !s.actionsReady
    ensures SceneOpenedSpec(g, scene, s) ==
      g.(gameState := LoadingScene, newScene := W.Some(scene), openScene := true,
         effects := g.effects + [GameStateChanged(LoadingScene)])
  {
  }

  /**
   * A project that arrives before the actions are ready is stashed with
   * its scene and the request to open it; the state and the effects stay.
   */
  lemma {:induction false} ProjectOpenedDelays(g: Snapshot, scene: Scene, project: Project, s: Services)
    requires !s.actionsReady
    ensures ProjectOpenedSpec(g, scene, project, s) ==
      g.(newProject := W.Some(project), newScene := W.Some(scene), openProject := true)
  {
  }

  /** Without a connection, `Update()` changes nothing. */
  lemma {:induction false} UpdateWaitsForConnection(g: Snapshot, s: Services)
    requires g.connectionStatus != ConnectionStatus.Connected
    ensures UpdateSpec(g, s) == g
  {
  }

  /**
   * A pending scene is served before a pending project: the project's
   * stash and flag are untouched, and the scene's request is cleared
   * unless the actions are still not ready, which stashes it again.
   */
  lemma {:induction false} UpdateServesSceneFirst(g: Snapshot, s: Services)
    requires g.connectionStatus == ConnectionStatus.Connected && g.openScene
    ensures UpdateSpec(g, s).openProject == g.openProject && UpdateSpec(g, s).newProject == g.newProject
    ensures s.actionsReady || g.newScene.None? ==> !UpdateSpec(g, s).openScene && UpdateSpec(g, s).newScene == W.None
    ensures !s.actionsReady && g.newScene.Some? ==> UpdateSpec(g, s).openScene && UpdateSpec(g, s).newScene == g.newScene
  {
  }

  /**
   * A pending project opens only when both stashes are set, which clears
   * them; with either missing only the request is dropped.
   */
  lemma {:induction false} UpdateOpensProjectWithBoth(g: Snapshot, s: Services)
    requires g.connectionStatus == ConnectionStatus.Connected && !g.openScene && g.openProject
    ensures g.newProject.None? || g.newScene.None? ==> UpdateSpec(g, s) == g.(openProject := false)
    ensures g.newProject.Some? && g.newScene.Some? && s.actionsReady ==>
      var r := UpdateSpec(g, s);
      r.newProject == W.None && r.newScene == W.None && !r.openProject && !r.openScene &&
      |r.effects| >= |g.effects| && CreateScene(g.newScene.value) in r.effects[|g.effects|..]
  {
    if g.newProject.Some? && g.newScene.Some? && s.actionsReady {
      ProjectOpenedCreatesScene(g.(openProject := false, newScene := W.None, newProject := W.None), g.newScene.value, g.newProject.value, s);
    }
  }

  /**
   * Once the actions are ready, `ProjectOpened` only appends to the
   * effects, one of them a request to create the scene, and leaves the
   * stashes and flags alone.
   */
  lemma {:induction false} ProjectOpenedCreatesScene(g: Snapshot, scene: Scene, project: Project, s: Services)
    requires s.actionsReady
    ensures var r := ProjectOpenedSpec(g, scene, project, s);
      Pending(r) == Pending(g) &&
      |r.effects| >= |g.effects| && r.effects[..|g.effects|] == g.effects && CreateScene(scene) in r.effects[|g.effects|..]
  {
    var g1 := if g.gameState == SceneEditor then Log(g, DestroyScene) else g;
    var g2 := Log(SetGameStateSpec(g1, LoadingProject), CreateScene(scene));
    var n := |g.effects|;
    assert Pending(g2) == Pending(g);
    assert g2.effects[..n] == g.effects && g2.effects[|g2.effects| - 1] == CreateScene(scene);
    var tail: seq<Effect> := match s.sceneCreated
      case Failed => [SaveLogs(scene, W.Some(project), "Failed to initialize scene")]
      case TimedOut => [SaveLogs(scene, W.Some(project), "Failed to initialize project")]
      case Threw(_) => []
      case Created =>
        if s.projectCreated == Created then [CreateProject(project), GameStateChanged(ProjectEditor)]
        else if s.projectCreated.Threw? then [CreateProject(project)]
        else [CreateProject(project), SaveLogs(scene, W.Some(project), "Failed to initialize project")];
    var r := ProjectOpenedSpec(g, scene, project, s);
    assert Pending(r) == Pending(g2) && r.effects == g2.effects + tail;
    assert r.effects[n..][|g2.effects| - 1 - n] == CreateScene(scene);
  }

  /**
   * Once the actions are ready, `SceneOpened` only appends to the effects,
   * one of them a request to create the scene and none a request to
   * create a project, and leaves the stashes and flags alone.
   */
  lemma {:induction false} SceneOpenedCreatesScene(g: Snapshot, scene: Scene, s: Services)
    requires s.actionsReady
    ensures var r := SceneOpenedSpec(g, scene, s);
      Pending(r) == Pending(g) &&
      |r.effects| >= |g.effects| && r.effects[..|g.effects|] == g.effects && CreateScene(scene) in r.effects[|g.effects|..] &&
      forall e :: e in r.effects[|g.effects|..] ==> !e.CreateProject?
  {
    var r := SceneOpenedSpec(g, scene, s);
    var n := |g.effects|;
    assert r.effects[n..][1] == CreateScene(scene);
    assert forall i :: n <= i < |r.effects| ==> !r.effects[i].CreateProject?;
  }

  /**
   * An exception escaping `CreateScene` ends `SceneOpened` right after the
   * request: the state stays `LoadingScene`, no editor opens and no log is saved.
   */
  lemma {:induction false} SceneOpenedStopsOnThrow(g: Snapshot, scene: Scene, s: Services)
    requires s.actionsReady && s.sceneCreated.Threw?
    ensures SceneOpenedSpec(g, scene, s) ==
      g.(gameState := LoadingScene, effects := g.effects + [GameStateChanged(LoadingScene), CreateScene(scene)])
  {
  }

  /**
   * An exception escaping `CreateScene` ends `ProjectOpened` in
   * `LoadingProject` with the scene's request last, and one escaping
   * `CreateProject` ends it with the project's request last; neither saves a log.
   */
  lemma {:induction false} ProjectOpenedStopsOnThrow(g: Snapshot, scene: Scene, project: Project, s: Services)
    requires s.actionsReady
    ensures var r := ProjectOpenedSpec(g, scene, project, s);
      s.sceneCreated.Threw? ==> r.gameState == LoadingProject && r.effects[|r.effects| - 1] == CreateScene(scene)
    ensures var r := ProjectOpenedSpec(g, scene, project, s);
      s.sceneCreated == Created && s.projectCreated.Threw? ==>
        r.gameState == LoadingProject && r.effects[|r.effects| - 1] == CreateProject(project) &&
        r.effects[|r.effects| - 2] == CreateScene(scene)
  {
  }

  /** Setting the connection status to the value it has does nothing. */
  lemma {:induction false} SetterIgnoresEqual(g: Snapshot, v: ConnectionStatus, s: Services)
    requires g.connectionStatus == v
    ensures SetConnectionStatusSpec(g, v, s) == g
  {
  }

  /**
   * Since the status starts as `Connected`, `Awake`'s assignment of
   * `Disconnected` always runs the disconnect branch.
   */
  lemma {:induction false} AwakeDisconnects(s: Services)
    ensures SetConnectionStatusSpec(Initial, ConnectionStatus.Disconnected, s).connectionStatus == ConnectionStatus.Disconnected
    ensures SetConnectionStatusSpec(Initial, ConnectionStatus.Disconnected, s).effects == [DisconnectedFromServer, DestroyProject, DestroyScene]
  {
  }

  /** Closing a scene or a project ends in the state `None`. */
  lemma {:induction false} ClosingEndsInNone(g: Snapshot)
    ensures SceneClosedSpec(g).gameState == None && ProjectClosedSpec(g).gameState == None
    ensures SceneClosedSpec(g).effects == g.effects + [GameStateChanged(ClosingScene), DestroyScene, CloseScene, GameStateChanged(None)]
    ensures ProjectClosedSpec(g).effects ==
      g.effects + [GameStateChanged(ClosingProject), DestroyProject, DestroyScene, CloseProject, GameStateChanged(None)]
  {
  }

  /**
   * Connecting from `Disconnected` when fetching the object types fails:
   * the disconnect is requested, yet the status still ends as `Connected`,
   * because the status had not changed yet when `DisconnectFromSever` ran.
   */
  lemma {:induction false} ConnectedDespiteFailedTypes(g: Snapshot, s: Services)
    requires g.connectionStatus == ConnectionStatus.Disconnected
    requires s.systemInfoOk && s.registerOk && s.objectTypes.None?
    ensures SetConnectionStatusSpec(g, ConnectionStatus.Connected, s).connectionStatus == ConnectionStatus.Connected
    ensures SetConnectionStatusSpec(g, ConnectionStatus.Connected, s).effects ==
      g.effects + [GetSystemInfo, RegisterUser, ConnectedToServer, GetObjectTypes, WebsocketDisconnect]
  {
  }

  /** A failed system-info request leaves a disconnected manager disconnected and sends nothing else. */
  lemma {:induction false} FailedSystemInfoStaysDisconnected(g: Snapshot, s: Services)
    requires g.connectionStatus == ConnectionStatus.Disconnected && !s.systemInfoOk
    ensures SetConnectionStatusSpec(g, ConnectionStatus.Connected, s) ==
      g.(effects := g.effects + [GetSystemInfo, WebsocketDisconnect, ConnectionFailed])
  {
  }

  /**
   * A scene and then a project that both arrive before the actions are
   * ready: the project's scene replaces the stashed scene, the first
   * frame with the actions ready opens that scene as a scene, and the next
   * frame finds no scene for the project, so the project is never created.
   */
  lemma {:induction false} DelayedProjectIsDropped(g: Snapshot, scene1: Scene, scene2: Scene, project: Project,
                                                   waiting: Services, ready: Services)
    requires g.connectionStatus == ConnectionStatus.Connected && !g.openScene && !g.openProject
    requires !waiting.actionsReady && ready.actionsReady
    ensures var g1 := ProjectOpenedSpec(SceneOpenedSpec(g, scene1, waiting), scene2, project, waiting);
            var g2 := UpdateSpec(g1, ready);
            var g3 := UpdateSpec(g2, ready);
            g3.newProject == W.Some(project) && !g3.openProject && !g3.openScene && |g3.effects| >= |g.effects| &&
            CreateScene(scene2) in g3.effects[|g.effects|..] && CreateProject(project) !in g3.effects[|g.effects|..]
  {
    var g1 := ProjectOpenedSpec(SceneOpenedSpec(g, scene1, waiting), scene2, project, waiting);
    assert g1 == g.(gameState := LoadingScene, newScene := W.Some(scene2), openScene := true,
                    newProject := W.Some(project), openProject := true, effects := g.effects + [GameStateChanged(LoadingScene)]);
    var h := g1.(openScene := false, newScene := W.None);
    var g2 := UpdateSpec(g1, ready);
    assert g2 == SceneOpenedSpec(h, scene2, ready);
    SceneOpenedCreatesScene(h, scene2, ready);
    var g3 := UpdateSpec(g2, ready);
    assert g3 == g2.(openProject := false);
    var n := |g.effects|;
    assert g3.effects[n..] == [GameStateChanged(LoadingScene)] + g3.effects[n + 1..];
    assert g3.effects[n + 1..] == g2.effects[|h.effects|..];
  }

  // ---------------------------------------------------------------------
  // The manager

  class GameManager {
    var gameState: GameState
    var connectionStatus: ConnectionStatus
    var newProject: W.Option<Project>
    var newScene: W.Option<Scene>
    var openProject: bool
    var openScene: bool
    /** The calls made into the rest of the application so far. */
    var effects: seq<Effect>

    function Snap(): Snapshot
      reads this
    {
      Snapshot(gameState, connectionStatus, newProject, newScene, openProject, openScene, effects)
    }

    /** The field initializers and the enums' defaults. */
    constructor ()
      ensures Snap() == Initial
    {
      gameState := GameState.Disconnected;
      connectionStatus := ConnectionStatus.Connected;
      newProject := W.None;
      newScene := W.None;
      openProject := false;
      openScene := false;
      effects := [];
    }

    /** `GetGameState()`. */
    function GetGameState(): (r: GameState)
      reads this
      ensures r == Snap().gameState
    {
      gameState
    }

    method SetGameState(value: GameState)
      modifies this
      ensures Snap() == SetGameStateSpec(old(Snap()), value)
    {
      gameState := value;
      effects := effects + [GameStateChanged(gameState)];
    }

    /** `OnConnectionStatusChanged(newState)`. */
    method OnConnectionStatusChanged(newState: ConnectionStatus, s: Services)
      modifies this
      ensures newState == ConnectionStatus.Connected ==> Snap() == ConnectedSpec(old(Snap()), s)
      ensures newState == ConnectionStatus.Disconnected ==> Snap() == DisconnectedSpec(old(Snap()))
      ensures newState == Connecting ==> Snap() == old(Snap())
      decreases if newState == ConnectionStatus.Connected then 5 else 1
    {
      match newState {
        case Connected =>
          effects := effects + [GetSystemInfo];
          if !s.systemInfoOk {
            DisconnectFromSever(s);
            effects := effects + [ConnectionFailed];
            return;
          }
          effects := effects + [RegisterUser];
          if !s.registerOk {
            DisconnectFromSever(s);
            effects := effects + [ConnectionFailed];
            return;
          }
          effects := effects + [ConnectedToServer];
          UpdateActionObjects(s);
          connectionStatus := newState;
        case Disconnected =>
          connectionStatus := ConnectionStatus.Disconnected;
          effects := effects + [DisconnectedFromServer, DestroyProject, DestroyScene];
        case Connecting =>
      }
    }

    /** The `ConnectionStatus` setter. */
    method SetConnectionStatus(value: ConnectionStatus, s: Services)
      modifies this
      ensures Snap() == SetConnectionStatusSpec(old(Snap()), value, s)
      decreases if value == ConnectionStatus.Connected then 6 else 2
    {
      if connectionStatus != value {
        OnConnectionStatusChanged(value, s);
      }
    }

    /** `Awake()`. */
    method Awake(s: Services)
      modifies this
      ensures Snap() == SetConnectionStatusSpec(old(Snap()), ConnectionStatus.Disconnected, s)
    {
      SetConnectionStatus(ConnectionStatus.Disconnected, s);
    }

    /** `OnConnected(sender, args)`, the websocket's connected event. */
    method OnConnected(s: Services)
      modifies this
      ensures Snap() == SetConnectionStatusSpec(old(Snap()), ConnectionStatus.Connected, s)
    {
      SetConnectionStatus(ConnectionStatus.Connected, s);
    }

    /** `DisconnectFromSever()`. */
    method DisconnectFromSever(s: Services)
      modifies this
      ensures Snap() == DisconnectSpec(old(Snap()))
      decreases 3
    {
      SetConnectionStatus(ConnectionStatus.Disconnected, s);
      effects := effects + [WebsocketDisconnect];
    }

    /** `UpdateActionObjects()`. */
    method UpdateActionObjects(s: Services)
      modifies this
      ensures Snap() == UpdateActionObjectsSpec(old(Snap()), s)
      decreases 4
    {
      effects := effects + [GetObjectTypes];
      if s.objectTypes.None? {
        DisconnectFromSever(s);
        return;
      }
      effects := effects + [UpdateObjects(s.objectTypes.value)];
    }

    /** `SceneOpened(scene)`. */
    method SceneOpened(scene: Scene, s: Services)
      modifies this
      ensures Snap() == SceneOpenedSpec(old(Snap()), scene, s)
    {
      SetGameState(LoadingScene);
      if !s.actionsReady {
        newScene := W.Some(scene);
        openScene := true;
        return;
      }
      effects := effects + [CreateScene(scene)];
      if s.sceneCreated == Created {
        OpenSceneEditor();
      } else if s.sceneCreated.Threw? {
        return;
      } else {
        effects := effects + [SaveLogs(scene, W.None, "Failed to initialize scene")];
      }
    }

    /** `ProjectOpened(scene, project)`. */
    method ProjectOpened(scene: Scene, project: Project, s: Services)
      modifies this
      ensures Snap() == ProjectOpenedSpec(old(Snap()), scene, project, s)
    {
      if !s.actionsReady {
        newProject := W.Some(project);
        newScene := W.Some(scene);
        openProject := true;
        return;
      }
      if GetGameState() == SceneEditor {
        effects := effects + [DestroyScene];
      }
      SetGameState(LoadingProject);
      effects := effects + [CreateScene(scene)];
      if s.sceneCreated == Failed {
        effects := effects + [SaveLogs(scene, W.Some(project), "Failed to initialize scene")];
        return;
      }
      if s.sceneCreated == TimedOut {
        effects := effects + [SaveLogs(scene, W.Some(project), "Failed to initialize project")];
        return;
      }
      if s.sceneCreated.Threw? {
        return;
      }
      effects := effects + [CreateProject(project)];
      if s.projectCreated == Created {
        OpenProjectEditor();
      } else if s.projectCreated.Threw? {
        return;
      } else {
        effects := effects + [SaveLogs(scene, W.Some(project), "Failed to initialize project")];
      }
    }

    /** `Update()`. */
    method Update(s: Services)
      modifies this
      ensures Snap() == UpdateSpec(old(Snap()), s)
    {
      if connectionStatus != ConnectionStatus.Connected {
        return;
      }
      if openScene {
        openScene := false;
        if newScene.Some? {
          var scene := newScene.value;
          newScene := W.None;
          SceneOpened(scene, s);
        }
      } else if openProject {
        openProject := false;
        if newProject.Some? && newScene.Some? {
          var scene := newScene.value;
          var project := newProject.value;
          newScene := W.None;
          newProject := W.None;
          ProjectOpened(scene, project, s);
        }
      }
    }

    /** `SceneClosed()`. */
    method SceneClosed()
      modifies this
      ensures Snap() == SceneClosedSpec(old(Snap()))
    {
      SetGameState(ClosingScene);
      effects := effects + [DestroyScene, CloseScene];
      SetGameState(None);
    }

    /** `ProjectClosed()`. */
    method ProjectClosed()
      modifies this
      ensures Snap() == ProjectClosedSpec(old(Snap()))
    {
      SetGameState(ClosingProject);
      effects := effects + [DestroyProject, DestroyScene, CloseProject];
      SetGameState(None);
    }

    /** `OpenSceneEditor()`. */
    method OpenSceneEditor()
      modifies this
      ensures Snap() == SetGameStateSpec(old(Snap()), SceneEditor)
    {
      SetGameState(SceneEditor);
    }

    /** `OpenProjectEditor()`. */
    method OpenProjectEditor()
      modifies this
      ensures Snap() == SetGameStateSpec(old(Snap()), ProjectEditor)
    {
      SetGameState(ProjectEditor);
    }
  }
}
