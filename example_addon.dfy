/**
 * The example addon `example/addon.php`: it registers two tasks of its own
 * and replaces `$tasks` with the full WordPress list plus those two tasks
 * right after `wp:config`.
 */
module ExampleAddon {
  import opened Wrappers
  import opened Deployer
  import opened Recipe

  const SomeTask := "some:task"
  const SomeOtherTask := "some:othertask"

  /** The addon's own tasks, in the order it runs them. */
  const OwnTasks: seq<string> := [SomeTask, SomeOtherTask]
  const OwnTaskNames: set<string> := {SomeTask, SomeOtherTask}

  /** The list the addon assigns to `$tasks`. */
  const ExampleTasks: seq<string> := [
    "deploy:prepare",
    "deploy:unlock",
    "deploy:lock",
    "deploy:release",
    "rsync",
    "wp:config",
    "some:task",
    "some:othertask",
    "cachetool:download",
    "deploy:shared",
    "deploy:symlink",
    "permissions:set",
    "opcache:reset",
    "core_db:update",
    "deploy:unlock",
    "cleanup"
  ]

  /** The addon as the recipe loads it: two closures, and an assignment that ignores the list it finds. */
  const Example: Addon := Addon(map[SomeTask := Callback, SomeOtherTask := Callback], _ => ExampleTasks)

  /** The addon file's top level: two `task()` calls, then the assignment to `$tasks`. */
  method Apply(reg: Registry, tasks: seq<string>) returns (tasks': seq<string>)
    modifies reg
    ensures reg.tasks == old(reg.tasks) + Example.defined
    ensures reg.hooks == old(reg.hooks)
    ensures tasks' == Example.edit(tasks)
  {
    reg.Task(SomeTask, Callback);
    reg.Task(SomeOtherTask, Callback);
    tasks' := ExampleTasks;
  }

  /** The addon registers exactly two tasks, both new: neither Deployer nor the recipe defines them. */
  lemma ExampleDefinesTwoNewTasks()
    ensures Example.defined.Keys == OwnTaskNames && |OwnTaskNames| == 2
    ensures forall n :: n in Example.defined ==> Example.defined[n] == Callback
    ensures OwnTaskNames !! RecipeLeaves.Keys && OwnTaskNames !! EngineTasks
  {
    assert SomeTask != SomeOtherTask by {
      assert |SomeTask| != |SomeOtherTask|;
    }
  }

  /** `wp:config` is at position 5 of the full list and nowhere before it. */
  lemma FullListHead()
    ensures forall j :: 0 <= j < 5 ==> WpTasks[j] != "wp:config"
    ensures WpTasks[5] == "wp:config"
  {
    SharedPositions();
  }

  /** No name of the full list is one of the addon's own. */
  lemma FullListHasNoOwnTask()
    ensures forall j :: 0 <= j < |WpTasks| ==> WpTasks[j] !in OwnTaskNames
  {
    forall j | 0 <= j < |WpTasks|
      ensures WpTasks[j] !in OwnTaskNames
    {
      assert WpTasks[j][0] != 's';
    }
  }

  /** The addon's list cut at the inserted tasks. */
  lemma ExampleSlices()
    ensures ExampleTasks == WpTasks[..6] + OwnTasks + WpTasks[6..]
  {
    assert ExampleTasks[..6] == WpTasks[..6];
    assert ExampleTasks[6..8] == OwnTasks;
    assert ExampleTasks[8..] == WpTasks[6..];
    assert ExampleTasks == ExampleTasks[..6] + ExampleTasks[6..8] + ExampleTasks[8..];
  }

  /** The addon's list is the full list with its two tasks inserted right after `wp:config`. */
  lemma ExampleIsInsertionAfterWpConfig()
    ensures ExampleTasks == InsertAfter(WpTasks, "wp:config", OwnTasks)
    ensures |ExampleTasks| == |WpTasks| + 2 == 16
  {
    FullListHead();
    InsertAfterAt(WpTasks, "wp:config", OwnTasks, 5);
    ExampleSlices();
  }

  /** Taking the addon's two tasks out again gives back the full list, both `deploy:unlock` entries included. */
  lemma RemovingOwnTasksGivesFullList()
    ensures Without(ExampleTasks, OwnTaskNames) == WpTasks
  {
    ExampleIsInsertionAfterWpConfig();
    FullListHead();
    FullListHasNoOwnTask();
    RemoveInserted(WpTasks, "wp:config", OwnTasks, 5, OwnTaskNames);
  }

  /** Every name in the addon's list is one of its own tasks or a step of the full list. */
  lemma ExampleNamesAreKnown()
    ensures forall x :: x in ExampleTasks ==> x in OwnTaskNames || x in WpTasks
    ensures forall x :: x in WpTasks ==> x in ExampleTasks
  {
    RemovingOwnTasksGivesFullList();
    WithoutMembers(ExampleTasks, OwnTaskNames);
  }

  /**
   * The addon assigns its list whatever the recipe selected: with
   * `SKIP_WP_TASKS` set to "true" the WordPress steps are back in `deploy`.
   */
  lemma ExampleOverridesSkip(skip: Option<string>)
    ensures DeployList(skip, Some(Example)) == ExampleTasks
    ensures forall t :: t in WpOnlyTasks ==> t in DeployList(skip, Some(Example))
    ensures DeployList(Some("true"), Some(Example)) != DeployList(Some("true"), None)
  {
    assert ExampleTasks[5] == "wp:config" && ExampleTasks[8] == "cachetool:download";
    assert ExampleTasks[11] == "permissions:set" && ExampleTasks[12] == "opcache:reset";
    assert ExampleTasks[13] == "core_db:update";
    ReplacingAddonOverridesSelection(Example, skip, None);
    ReducedListIsFullListWithoutWpSteps();
  }

  /** `deploy:unlock` is at positions 1 and 14 of the addon's list and nowhere else. */
  lemma ExampleUnlockPositions()
    ensures ExampleTasks[1] == ExampleTasks[14] == "deploy:unlock"
    ensures ExampleTasks[0] != "deploy:unlock" && ExampleTasks[15] != "deploy:unlock"
    ensures forall i :: 2 <= i < 14 ==> ExampleTasks[i] != "deploy:unlock"
  {
  }

  /** The addon's list keeps the frame of the recipe's lists. */
  lemma ExampleFramed()
    ensures Framed(ExampleTasks)
  {
    var e := ExampleTasks;
    ExampleUnlockPositions();
    assert e == [e[0]] + [e[1]] + e[2..14] + [e[14]] + [e[15]];
    assert "deploy:unlock" !in e[2..14];
  }

  /** With Deployer's recipes and the addon loaded, every name in `deploy` is a registered task. */
  lemma ExampleDeployResolvable(tasks: map<string, TaskDef>, skip: Option<string>)
    requires EngineTasks <= tasks.Keys
    ensures Resolvable(LoadedTasks(tasks, skip, Some(Example)), DeployTask)
  {
    var loaded := LoadedTasks(tasks, skip, Some(Example));
    ExampleOverridesSkip(skip);
    assert forall i :: 0 <= i < |ExampleTasks| ==> ExampleTasks[i] in loaded;
  }
}
