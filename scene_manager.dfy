/** The framework's stack of scenes (framework/src/scene_manager.rs and the
    commands of framework/src/scene.rs): the top scene receives the events,
    and a scene may answer an event with a command that replaces, pushes or
    pops scenes or clears the stack. A scene is a value of type `S`; its
    event handler, which may change the scene, is a function from the scene
    and the event to the changed scene and the command. */
module SceneManager {
  import opened Common

  /** `SceneCommand`. */
  datatype SceneCommand<S> = SetScene(scene: S) | PushScene(scene: S) | PopScene | Clear

  /** The stack without its top; an empty stack stays empty. */
  function Pop<S>(stack: seq<S>): (r: seq<S>)
    ensures |r| == if stack == [] then 0 else |stack| - 1
    ensures r == stack[..|r|]
  {
    if stack == [] then [] else stack[..|stack| - 1]
  }

  /** The stack after a command, as `handle_scene_command` leaves it. */
  function Apply<S>(stack: seq<S>, command: Option<SceneCommand<S>>): seq<S>
  {
    match command
    case None => stack
    case Some(SetScene(s)) => Pop(stack) + [s]
    case Some(PushScene(s)) => stack + [s]
    case Some(PopScene) => Pop(stack)
    case Some(Clear) => []
  }

  /** Each command's effect on the stack: a set replaces the top (or starts
      a one-scene stack), a push adds a top, a pop removes the top (or does
      nothing on an empty stack), a clear empties the stack; the scenes
      below the top are kept by all but a clear. */
  lemma ApplyEffects<S>(stack: seq<S>, s: S)
    ensures var r := Apply(stack, Some(SetScene(s)));
      |r| == (if stack == [] then 1 else |stack|) && r[|r| - 1] == s && r[..|r| - 1] == Pop(stack)
    ensures var r := Apply(stack, Some(PushScene(s)));
      |r| == |stack| + 1 && r[|stack|] == s && r[..|stack|] == stack
    ensures stack != [] ==> Apply(stack, Some(PopScene)) == stack[..|stack| - 1]
    ensures stack == [] ==> Apply(stack, Some(PopScene)) == []
    ensures Apply(stack, Some(Clear)) == []
    ensures Apply(stack, None) == stack
  {
    var r := Apply(stack, Some(SetScene(s)));
    assert r[..|r| - 1] == Pop(stack);
    assert (stack + [s])[..|stack|] == stack;
  }

  /** Popping undoes a push, and setting after a push is the same as pushing
      the second scene. */
  lemma PushThenPop<S>(stack: seq<S>, s: S, t: S)
    ensures Apply(Apply(stack, Some(PushScene(s))), Some(PopScene)) == stack
    ensures Apply(Apply(stack, Some(PushScene(s))), Some(SetScene(t))) == stack + [t]
  {
    assert (stack + [s])[..|stack|] == stack;
  }

  class SceneManager<S> {
    /** `scene_stack`: the last element is the top scene. */
    var sceneStack: seq<S>

    /** `SceneManager::new` and `SceneManager::default`: no scenes. */
    constructor ()
      ensures sceneStack == []
      ensures SceneCount() == 0
    {
      sceneStack := [];
    }

    /** `scene_count`. */
    function SceneCount(): nat
      reads this
    {
      |sceneStack|
    }

    /** `set_scene`: pops the top, if any, and pushes `scene`. */
    method SetScene(scene: S)
      modifies this
      ensures sceneStack == Apply(old(sceneStack), Some(SceneCommand.SetScene(scene)))
      ensures SceneCount() == if old(sceneStack) == [] then 1 else old(SceneCount())
    {
      if sceneStack != [] {
        sceneStack := sceneStack[..|sceneStack| - 1];
      }
      sceneStack := sceneStack + [scene];
    }

    /** `push_scene`: `scene` becomes the top. */
    method PushScene(scene: S)
      modifies this
      ensures sceneStack == Apply(old(sceneStack), Some(SceneCommand.PushScene(scene)))
      ensures SceneCount() == old(SceneCount()) + 1
    {
      sceneStack := sceneStack + [scene];
    }

    /** `pop_scene`: removes and returns the top, or returns `None` and
        changes nothing when there is no scene. */
    method PopScene() returns (r: Option<S>)
      modifies this
      ensures sceneStack == Apply(old(sceneStack), Some(SceneCommand.PopScene))
      ensures old(sceneStack) == [] ==> r == None
      ensures old(sceneStack) != [] ==> r == Some(old(sceneStack)[|old(sceneStack)| - 1])
    {
      if sceneStack == [] {
        r := None;
      } else {
        r := Some(sceneStack[|sceneStack| - 1]);
        sceneStack := sceneStack[..|sceneStack| - 1];
      }
    }

    /** `clear`: no scenes. */
    method Clear()
      modifies this
      ensures sceneStack == Apply(old(sceneStack), Some(SceneCommand.Clear))
      ensures SceneCount() == 0
    {
      sceneStack := [];
    }

    /** `handle_scene_command`: dispatches the command to the operation of
        the same name; no command changes nothing. */
    method HandleSceneCommand(command: Option<SceneCommand<S>>)
      modifies this
      ensures sceneStack == Apply(old(sceneStack), command)
    {
      match command
      case None =>
      case Some(SetScene(s)) => SetScene(s);
      case Some(PushScene(s)) => PushScene(s);
      case Some(PopScene) => var _ := PopScene();
      case Some(Clear) => Clear();
    }

    /** `handle_event`: with no scene, nothing happens; otherwise the top
        scene handles the event, is put back as it was left by the handler,
        and the command it returned is then applied. */
    method HandleEvent<E>(e: E, handle: (S, E) -> (S, Option<SceneCommand<S>>))
      modifies this
      ensures old(sceneStack) == [] ==> sceneStack == []
      ensures old(sceneStack) != [] ==>
        var top := old(sceneStack)[|old(sceneStack)| - 1];
        sceneStack == Apply(Pop(old(sceneStack)) + [handle(top, e).0], handle(top, e).1)
    {
      var top := PopScene();
      if top.Some? {
        var (scene, command) := handle(top.value, e);
        PushScene(scene);
        HandleSceneCommand(command);
      }
    }
  }
}
