# action-deploy-wordpress: the Deployer recipe, modelled in Dafny

`deploy.php` is a Deployer recipe for WordPress sites. A GitHub Action runs it.
It does four things:

- It defines five tasks of its own: `cachetool:download`, `opcache:reset`, `core_db:update`, `wp:config` and `permissions:set`.
- It picks one of two ordered task lists, depending on `SKIP_WP_TASKS`.
- It lets an optional addon file (`.github/deploy/addon.php` in the workspace) register more tasks and rewrite that list.
- It registers the result as the `deploy` group, with `success` hooked after it.

Before that, it adds two SSH options to every host of the inventory and sets the rsync exclude list.
`example/addon.php` is the example addon the action ships.

The model has five modules:

- `Wrappers`: `Option`.
- `Php`: the PHP rules the recipe's decisions depend on.
  - `strpos` and the `false !==` substring test.
  - `getenv` and `empty()`, under which `"0"` is empty.
  - Numeric strings, and `<` between a value and an integer literal.
- `Deployer`: the part of the Deployer engine the recipe drives.
  - `run()` and `cd()` on the current host. These are a `Session` class whose log records every action.
  - The task registry that `task()` and `after()` fill.
  - `Host` objects and the host collection.
- `Recipe`: `deploy.php`.
  - Each task body is a method over a `Session`. Its `ensures` ties the log and the task's outcome to a trace function.
  - Lemmas state which commands each branch issues.
  - The task lists, their selection, the addon step and the `deploy` group are functions over the lists, with lemmas relating them.
  - `Load` is a method over the `Registry`.
  - The host loop is a method over the `HostCollection`.
- `ExampleAddon`: `example/addon.php`. It is an `Addon` value, a method that registers its tasks, and lemmas that relate its list to the recipe's.

The host's answer to each command is an input of the model. It is a function `Remote` from command line to `Reply`: `Output(text)`, or `Failed` when the command exits non-zero and Deployer throws.

A task body is modelled like this:

- A `run()` that is not caught ends the task at the first failure. The function `Deployer.Script` captures this.
- A probe inside `try { } catch` never ends the task. A failed `ee --version` leaves the version string as `''`. A failed `ee shell` query for the PHP version sets `$php_version` to 7.4 instead.

Rows marked "definition" name a function that encodes the source lines; the members named in the row state its properties.

## Model

| member | source | states |
|---|---|---|
| Php.StrPosFrom | deploy.php:84 | `strpos(h, n)`, generalised to a start index for the recursion: the first index at or after the start where the needle occurs, or `false` when there is none; the recipe always starts at 0 |
| Php.Contains | deploy.php:114 | `false !== strpos(h, n)` holds exactly when `n` occurs somewhere in `h` |
| Php.FromEnv | deploy.php:75 | definition of `getenv(name)`: the variable's string, or `false` when it is unset; its use is stated by `Recipe.CachetoolWithoutEe4`, `Recipe.CachetoolFromEnv` and `Recipe.ResolvePhpVersionOn` |
| Php.DecimalBelowIffMajorBelow | deploy.php:95 | a decimal string is below an integer exactly when its integer part is |
| Php.Empty | deploy.php:76 | definition of `empty()`: `false`, `''`, `"0"` and 0.0 are empty; its use is stated by `Recipe.CachetoolFromEnv`, `Recipe.CachetoolWithoutEe4` and `Recipe.ResolvePhpVersionOn` |
| Php.LessThan | deploy.php:95 | `$php_version < 8`: `false` and `''` are below 8, a decimal string compares by its major version, the float 7.4 compares numerically |
| Deployer.Script | deploy.php:116-121 | uncaught `run()` calls: the trace is a prefix of the steps, every action before the last succeeded, and the task completes exactly when every step was issued and succeeded |
| Deployer.ScriptOfOne | deploy.php:161 | a task made of one uncaught `run()` issues that command and completes exactly when it succeeds |
| Deployer.ScriptOfCdThenOne | deploy.php:120-121 | `cd()` followed by one `run()` issues both, and completes exactly when the command succeeds |
| Deployer.Session.constructor | deploy.php:79 | a new connection to a host has an empty log |
| Deployer.Session.Run | deploy.php:79 | `run(line)` appends the command to the log and returns the host's reply to it |
| Deployer.Session.Cd | deploy.php:120 | `cd(path)` appends the directory change to the log |
| Deployer.Registry.constructor | deploy.php:6 | the registry starts with the tasks the required Deployer recipes define and no hooks |
| Deployer.Registry.Task | deploy.php:73 | `task(name, body)` registers `name`, and replaces an earlier task of that name |
| Deployer.Registry.TaskAll | example/addon.php:8-17 | several `task()` calls add their definitions and leave the hooks alone |
| Deployer.Registry.After | deploy.php:219 | `after(task, hook)` appends the hook and leaves the tasks alone |
| Deployer.Host.constructor | deploy.php:22 | a host keeps the hostname, SSH options and settings it was created with |
| Deployer.Host.AddSshOption | deploy.php:29-30 | `addSshOption` sets one option, and a later value for the same option replaces the earlier one; nothing else about the host changes |
| Deployer.HostCollection.constructor | deploy.php:25 | an empty collection is valid |
| Deployer.HostCollection.Set | deploy.php:32 | `set(name, host)` files the host under its name; an existing name keeps its place, a new name goes last; every host stays filed under its own hostname |
| Recipe.Detect | deploy.php:114-125 | EasyEngine 3 is chosen exactly when "EasyEngine v3" occurs; EasyEngine 4 exactly when "EE 4" occurs and "EasyEngine v3" does not; no panel when neither occurs |
| Recipe.DetectExamples | deploy.php:141-152 | a version string naming both panels selects version 3; the empty string selects no panel |
| Recipe.ProbeText | deploy.php:107-112 | definition: the version string after the caught probe, the output or `''`; stated by `Recipe.ProbeEeVersion` and `Recipe.FailedProbeSkips` |
| Recipe.DetectedPanel | deploy.php:107-118 | definition: the panel chosen from the caught probe's version string; stated by `Recipe.FailedProbeSkips` and `Recipe.OpcacheResetCommands` |
| Recipe.OpcacheResetSteps | deploy.php:114-125 | definition: the actions each panel's branch issues; stated by `Recipe.OpcacheResetCommands` |
| Recipe.OpcacheResetTrace | deploy.php:107-125 | definition: the probe, then the branch's actions run as uncaught commands; stated by `Recipe.OpcacheResetCommands`, `Recipe.FailedProbeSkips` and the method `Recipe.OpcacheReset` |
| Recipe.CoreDbUpdateSteps | deploy.php:141-152 | definition: the actions each panel's branch issues; stated by `Recipe.CoreDbUpdateCommands` |
| Recipe.CoreDbUpdateTrace | deploy.php:134-152 | definition: the probe, then the branch's actions run as uncaught commands; stated by `Recipe.CoreDbUpdateCommands`, `Recipe.FailedProbeSkips` and the method `Recipe.CoreDbUpdate` |
| Recipe.FailedProbeSkips | deploy.php:107-112 | a failed `ee --version` selects no panel, and `opcache:reset` and `core_db:update` then issue only the probe and complete |
| Recipe.ProbeEeVersion | deploy.php:107-112 | the probe issues `ee --version`; the version string is the host's output, or `''` when the command fails |
| Recipe.OpcacheReset | deploy.php:105-129 | the task body logs exactly the actions of its trace, and reports completion exactly when the trace completes |
| Recipe.OpcacheResetCommands | deploy.php:114-125 | version 3 resets through port 9070; EasyEngine 4 changes to `{{deploy_path}}`, then resets through `ee shell` on port 9000; no panel issues nothing after the probe; each branch completes exactly when its command succeeds |
| Recipe.CoreDbUpdate | deploy.php:132-156 | the task body logs exactly the actions of its trace, and reports completion exactly when the trace completes |
| Recipe.CoreDbUpdateCommands | deploy.php:141-152 | version 3 runs `wp core update-db` in the release; EasyEngine 4 changes to `{{deploy_path}}`, then runs it through `ee shell` in `current`; no panel issues nothing after the probe |
| Recipe.ResolvePhpVersion | deploy.php:75-93 | definition: the probes issued and the value `$php_version` holds before the comparison; stated by `Recipe.CachetoolFromEnv`, `Recipe.CachetoolWithoutEe4`, `Recipe.CachetoolOnEe4` and the method `Recipe.ResolvePhpVersionOn` |
| Recipe.CachetoolCmdFor | deploy.php:95-100 | definition: the 5.1.3 download when `$php_version < 8`, the 8.4.0 download otherwise; stated by `Recipe.Download` and the cachetool lemmas |
| Recipe.CachetoolTrace | deploy.php:73-101 | definition: the probes, then the one download as an uncaught command; stated by `Recipe.CachetoolDownloadsOnce`, the other cachetool lemmas and the method `Recipe.CachetoolDownload` |
| Recipe.ResolvePhpVersionOn | deploy.php:75-93 | `$php_version` ends up as `ResolvePhpVersion`'s version, and the log gains exactly its probes |
| Recipe.CachetoolDownload | deploy.php:73-101 | the task body logs the probes and then one download, as `CachetoolTrace` says, and completes exactly when that trace does |
| Recipe.Download | deploy.php:95-100 | exactly one download is issued, the 5.1.3 phar when `$php_version < 8` and the 8.4.0 phar otherwise, and its reply is returned |
| Recipe.CachetoolFromEnv | deploy.php:75-76 | a non-empty `PHP_VERSION` is used as given with no probe; the 5.1.3 phar is downloaded exactly when its major version is below 8 |
| Recipe.CachetoolWithoutEe4 | deploy.php:76-84 | with `PHP_VERSION` empty and no "EE 4" in the probe, only the probe and the 5.1.3 download are issued |
| Recipe.CachetoolOnEe4 | deploy.php:84-100 | with `PHP_VERSION` empty on EasyEngine 4, the PHP major version is asked of `ee shell`; if that fails, 7.4 is assumed and 5.1.3 is downloaded; an empty answer also downloads 5.1.3; any other answer downloads 8.4.0 exactly when the major version is 8 or more |
| Recipe.CachetoolDownloadsOnce | deploy.php:95-100 | whatever the inputs, at most two probes are followed by exactly one download, of one of the two phars |
| Recipe.WpConfigTrace | deploy.php:159-162 | definition: the one guarded command as an uncaught `run()`; stated by `Recipe.WpConfigCommand` and the method `Recipe.WpConfig` |
| Recipe.WpConfig | deploy.php:159-162 | the task body issues its one command and completes exactly when it succeeds |
| Recipe.WpConfigCommand | deploy.php:161 | `wp:config` is a single command that starts with the test for an existing `wp-config.php` and ends with the fallback `echo ""` |
| Recipe.PermissionsSetTrace | deploy.php:169-174 | definition: the one `chown` as an uncaught `run()`; stated by `Recipe.PermissionsSetCommand` and the method `Recipe.PermissionsSet` |
| Recipe.PermissionsSet | deploy.php:169-174 | the task body issues its one command and completes exactly when it succeeds |
| Recipe.PermissionsSetCommand | deploy.php:171 | `permissions:set` issues its one `chown` on every host, whatever panel the host runs |
| Recipe.SelectTasks | deploy.php:205-209 | the reduced list is chosen exactly when `SKIP_WP_TASKS` is the string "true", and the full list otherwise |
| Recipe.SkipFlagIsExact | deploy.php:205 | unset, "TRUE", "1" and "" all select the full list |
| Recipe.WithoutMembers | deploy.php:193-203 | removing a set of names keeps exactly the entries outside the set |
| Recipe.WithoutKeepsCounts | deploy.php:193-203 | removing names keeps every other name as many times as it occurred |
| Recipe.WpOnlyTasksAreRecipeLeaves | deploy.php:73-174 | the steps the reduced list omits are exactly the five tasks the recipe defines itself |
| Recipe.ReducedListIsFullListWithoutWpSteps | deploy.php:176-203 | the reduced list is the full list with the five WordPress steps removed and the rest in order; the lengths are 14 and 9 |
| Recipe.ReducedListKeepsDuplicates | deploy.php:178-201 | both `deploy:unlock` entries of the full list survive in the reduced list |
| Recipe.WpTasksFramed | deploy.php:176-191 | the full list opens with `deploy:prepare`, closes with `deploy:unlock`, `cleanup`, and contains `deploy:unlock` twice |
| Recipe.NonWpTasksFramed | deploy.php:193-203 | the reduced list has the same frame |
| Recipe.SelectedListFramed | deploy.php:205-209 | whichever list is selected has that frame |
| Recipe.InsertAfterAt | example/addon.php:23-40 | inserting after the first occurrence of an anchor at position i puts the new names between positions i and i + 1 |
| Recipe.RemoveInserted | example/addon.php:23-40 | removing the inserted names again gives back the original list |
| Recipe.DeployList | deploy.php:205-218 | definition: the selected list, or what the addon made of it; stated by `Recipe.ReplacingAddonOverridesSelection`, `Recipe.NoAddonKeepsSelection` and `Recipe.Load` |
| Recipe.ReplacingAddonOverridesSelection | example/addon.php:23 | an addon that assigns `$tasks` outright, whatever it held, gives `deploy` its own list for every value of `SKIP_WP_TASKS` |
| Recipe.NoAddonKeepsSelection | deploy.php:205-214 | without an addon, `deploy` gets the reduced list for "true" and the full list when the flag is unset, and the two differ |
| Recipe.DefineTasks | deploy.php:73-174 | the five `task()` calls add the recipe's tasks and no hook |
| Recipe.RecipeLeavesOneByOne | deploy.php:73-174 | the five `task()` calls, in source order, add exactly the recipe's five tasks to whatever was registered |
| Recipe.LoadedTasks | deploy.php:211-219 | definition: the registry after the recipe, with the addon's tasks and the `deploy` group of `DeployList`; stated by `Recipe.Load`, `Recipe.DeployResolvable` and `ExampleAddon.ExampleDeployResolvable` |
| Recipe.Load | deploy.php:176-219 | the registry ends up with the recipe's tasks, the addon's tasks and the `deploy` group of `DeployList`, and `success` is hooked after `deploy` |
| Recipe.DeployResolvable | deploy.php:176-218 | with Deployer's recipes loaded and no addon, every name in `deploy` is a registered task, whichever list is selected |
| Recipe.InjectedSshOptions | deploy.php:28-30 | the host gets `UserKnownHostsFile=/dev/null` and `StrictHostKeyChecking=no`, gains no other option, and keeps the values of its other options |
| Recipe.InjectedSshOptionsIdempotent | deploy.php:28-30 | adding the two options a second time changes nothing |
| Recipe.SecureHost | deploy.php:28-30 | the chained `addSshOption` calls give the host exactly those options and leave its settings alone |
| Recipe.SecureAndRestore | deploy.php:28-32 | one pass of the loop secures the host, then files it back under its own hostname; the names, their order and the hosts stay the same |
| Recipe.InjectSshOptions | deploy.php:27-33 | after the loop, every host carries the two options, keeps its other options and settings, and is still filed under its own hostname; the hostnames and their order do not change |
| Recipe.RsyncExcludeValues | deploy.php:37-55 | the exclude list has 16 entries and 15 distinct values; `package.json` appears at positions 9 and 14, and the second entry excludes nothing more |
| ExampleAddon.Apply | example/addon.php:8-40 | the addon file registers its two tasks, leaves the hooks alone, and replaces `$tasks` with its list |
| ExampleAddon.ExampleDefinesTwoNewTasks | example/addon.php:8-17 | the addon registers exactly `some:task` and `some:othertask`, and neither Deployer nor the recipe defines either name |
| ExampleAddon.ExampleIsInsertionAfterWpConfig | example/addon.php:23-40 | the addon's list is the full list with its two tasks inserted right after `wp:config`; it has 16 entries |
| ExampleAddon.RemovingOwnTasksGivesFullList | example/addon.php:23-40 | removing the addon's two tasks from its list gives back the full list, both `deploy:unlock` entries included |
| ExampleAddon.ExampleNamesAreKnown | example/addon.php:23-40 | every name in the addon's list is one of its own tasks or a step of the full list, and every step of the full list is in it |
| ExampleAddon.ExampleOverridesSkip | example/addon.php:23 | with the addon loaded, `deploy` gets the addon's list whatever `SKIP_WP_TASKS` says; with "true", the WordPress steps come back |
| ExampleAddon.ExampleFramed | example/addon.php:24-39 | the addon's list has the same frame as the recipe's lists, with `deploy:unlock` twice |
| ExampleAddon.ExampleDeployResolvable | deploy.php:211-218 | with Deployer's recipes and the example addon loaded, every name in `deploy` is a registered task |

## Left out

- Executing commands is not modelled: SSH, rsync, wget, `ee` and the shell meaning of each command line. The host's reply is an input. `{{...}}` placeholders stay unexpanded in the command strings.
- Recipe.WpConfigCommand: states only the command's guard and its `echo ""` fallback. That the fallback keeps the task from failing when `wp-config.php` already exists is shell meaning, which is not modelled: the command's success stays an input.
- `cd()` is recorded in the log. Its effect on the working directory of later commands is not modelled.
- `writeln()` and `echo` output is not modelled. This includes the `$output` that is undefined when `opcache:reset` or `core_db:update` takes the skip branch (deploy.php:127, deploy.php:154). Such a task is modelled as completing with no command after the probe.
- How Deployer runs the `deploy` group is not modelled: running the members in order, aborting on the first failing task, running the `success` hook, and running hosts in parallel. That behaviour is Deployer's own. Each task body is modelled separately.
- Deployer's recipe tasks (`deploy:prepare`, `deploy:unlock`, `deploy:lock`, `deploy:release`, `rsync`, `deploy:shared`, `deploy:symlink`, `cleanup`, `success`) are opaque registered names. `recipe/common.php` and the rsync recipe are not part of this model.
- The `set()` configuration is not modelled, apart from the rsync exclude list. This covers `ssh_type`, `ssh_multiplexing`, `shared_dirs`, `writable_dirs`, the other rsync options, and `rsync_src`/`rsync_dest`. None of it is decision logic.
- Loading the rsync recipe from the vendor directory or `COMPOSER_HOME` (deploy.php:11-15) is not modelled.
- Parsing `inventory('/hosts.yml')` is not modelled. The host collection it fills is an input of `Recipe.InjectSshOptions`.
- Recipe.InjectSshOptions: the model requires every host to be filed under its own hostname, as Deployer's `host()` and `inventory()` file them. For a collection that files a host under another name, the source's `set($host->getHostname(), $host)` would add a second entry; the model does not cover that case.
- Php.LessThan, Recipe.CachetoolDownload: the model reads only plain decimal strings, digits with an optional point and more digits, so `CachetoolDownload` requires the resolved `$php_version` to be `false`, `''`, the float 7.4 or such a string, for example "8" or "7.4". PHP also treats strings such as "+8", ".5", "7.", "1e1" and " 8" as numeric; they are not modelled. Nor are non-numeric strings such as "php8" or "10.0-fpm", which PHP 7 and PHP 8 compare with 8 differently.
- The addon file is found through `getenv('GITHUB_WORKSPACE')` and `file_exists` (deploy.php:211-214). The model takes its result as an input, `Option<Addon>`. An addon is modelled by the tasks it registers and by what it does to `$tasks`. Any other effect of an arbitrary PHP file is not modelled.
- `permissions:set` is an unconditional `chown -R www-data:www-data {{deploy_path}}` in this `deploy.php`. Other variants of the script branch on the control-panel probe and look up an owner per branch in the inventory. This model follows the code shown here.
- `000-block-emails.php` is not part of this model. It is a `wp_mail` stub that returns true without sending, and it holds no decision logic.
