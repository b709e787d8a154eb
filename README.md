# task_init() of the TizenRT kernel, in Dafny

This project models `task_init()` from `os/kernel/task/task_init.c`.
The function takes a task control block (TCB) and a stack that the caller has
already allocated, and prepares them for a later `task_activate()`. It runs a
fixed sequence of set-up steps:

1. `group_allocate()` creates the task group (only with `HAVE_TASK_GROUP`).
2. `group_setuptaskfiles()` attaches file and socket descriptors (only when descriptors are configured).
3. `up_use_stack()` binds the caller's stack.
4. `task_schedsetup()` records priority, entry point and task type.
5. `task_argsetup()` copies the name and arguments.
6. `group_initialize()` makes the task a member of its group (only with `HAVE_TASK_GROUP`).

A failure of step 1 jumps to `errout`. A failure of step 2, 4 or 6 jumps to
`errout_with_group`, which calls `group_leave()` when groups are configured.
Both exits set errno to the error code and return `ERROR`. The return values
of `up_use_stack()` and `task_argsetup()` are discarded.

The project has two modules.

- `TaskSpec` (`task_spec.dfy`) is pure. It holds the three compile-time
  switches as a `Config`, the collaborators as an `Op` enumeration, and their
  return values as an `Oracle`. It gives two semantics:
  - `Run` is a generic "unwind on first failure" driver over a table of
    steps, each paired with its undo action.
  - `GotoRun` follows the gotos of the function as written.
  
  `GotoRunIsUnwind` proves the two equal. The ordering, rollback and errno
  properties are proved as lemmas about these semantics.
- `TaskInit` (`task_init.dfy`) is imperative.
  - `Tcb` is a class whose fields the collaborators update.
  - `Kernel` is a class holding the configuration, the caller's errno and a
    ghost trace of the calls made.
  - Each collaborator is a method that appends its call to the trace. It
    takes its return value from the oracle.
  - `Kernel.TaskInit` is the function body. Its gotos are labelled blocks
    left with `break`. Its contract ties the result, errno, the trace and
    every TCB field to `GotoRun`.

The collaborators' return values come from the oracle, since their code is
not part of this model. This also covers the errno that `task_schedsetup()`
leaves behind when it fails.

## Model

| member | source | states |
|---|---|---|
| TaskInit.Kernel.TaskInit | os/kernel/task/task_init.c:132-199 | Requires that the TCB is not a pthread when pthreads are enabled. Ensures the following. The result is OK exactly when every checked step succeeds, and ERROR otherwise. The trace grows by exactly the calls of the goto semantics. errno is unchanged on success and is the failing step's error code on failure. The stack stays bound on every path that reached `up_use_stack()`, failures included. Priority, entry, type TASK, name and arguments are set exactly when `task_schedsetup()` succeeded; otherwise they are untouched. The group ends joined on success, released after any failure that follows a successful allocation, and untouched otherwise. Descriptors stay attached only when no rollback ran. |
| TaskInit.Kernel.AllocateGroup | os/kernel/task/task_init.c:147 | `group_allocate()` is recorded in the trace. It returns the oracle's value. The TCB gets an allocated group exactly when that value is non-negative. |
| TaskInit.Kernel.SetupTaskFiles | os/kernel/task/task_init.c:157 | `group_setuptaskfiles()` is recorded in the trace. Descriptors become attached exactly when its return value is non-negative. |
| TaskInit.Kernel.UseStack | os/kernel/task/task_init.c:166 | `up_use_stack()` is recorded in the trace and binds the given stack region to the TCB, whatever it returns. |
| TaskInit.Kernel.SchedSetup | os/kernel/task/task_init.c:170 | `task_schedsetup()` is recorded in the trace. If it returns less than OK, errno is set to its failure code and the TCB is unchanged. Otherwise errno is unchanged and priority, entry point and task type are set. |
| TaskInit.Kernel.ArgSetup | os/kernel/task/task_init.c:178 | `task_argsetup()` is recorded in the trace and stores the name and argument list in the TCB. |
| TaskInit.Kernel.InitializeGroup | os/kernel/task/task_init.c:183 | `group_initialize()` is recorded in the trace. The task joins its group exactly when the return value is non-negative. |
| TaskInit.Kernel.LeaveGroup | os/kernel/task/task_init.c:193 | `group_leave()` is recorded in the trace. It leaves the TCB without a group and without descriptors, and changes nothing on a TCB that already had neither. |
| TaskInit.Kernel.GetErrno | os/kernel/task/task_init.c:172 | `get_errno()` returns the caller's current errno. |
| TaskInit.Kernel.SetErrno | os/kernel/task/task_init.c:197 | `set_errno()` makes the given code the caller's errno. |
| TaskInit.Tcb.constructor | os/kernel/task/task_init.c:107 | A caller-allocated TCB starts with its type chosen, no group, no descriptors, no stack and no scheduling data. |
| TaskSpec.Steps | os/kernel/task/task_init.c:146-193 | The step table of task_init() for a configuration. It has three steps, plus two with groups and one with descriptors. The steps appear in source order, each at most once, and `group_leave()` is never a step. Only `group_allocate()` owns an undo action, and that action is `group_leave()`. Only the results of `up_use_stack()` and `task_argsetup()` are discarded. Only `task_schedsetup()` reports its failure through errno. |
| TaskSpec.Run | os/kernel/task/task_init.c:146-198 | The reference semantics: the unwind-on-first-failure driver run over the step table. It succeeds exactly when every checked step succeeds. A failure carries the error code of a step that failed. |
| TaskSpec.GotoRun | os/kernel/task/task_init.c:146-198 | task_init() as its gotos are written. It succeeds exactly when every checked step succeeds. It always makes at least one call. A failure's error code is one of the negated results of `group_allocate()`, `group_setuptaskfiles()` and `group_initialize()`, or the errno left by `task_schedsetup()`. Every contract of `TaskInit.Kernel.TaskInit` is stated through it. |
| TaskSpec.Rollback | os/kernel/task/task_init.c:191-193 | The undo actions of the completed steps, most recent first. It never runs more undo actions than there are completed steps, and only undo actions those steps own. |
| TaskSpec.RollbackPrefix | os/kernel/task/task_init.c:191-196 | Rolling back any completed prefix of the step table calls `group_leave()` once when groups are configured and allocation completed, and calls nothing otherwise. The stack binding, scheduler set-up and argument copy are never undone. |
| TaskSpec.RunFailsAt | os/kernel/task/task_init.c:191-198 | When step k is the first to fail, the calls are the steps up to and including k, followed by `group_leave()` exactly when groups are configured and k is not the allocation. The error code is step k's. |
| TaskSpec.RunSucceeds | os/kernel/task/task_init.c:146-189 | The run succeeds if and only if every checked step succeeds. On success the trace is exactly the full set-up sequence in source order, with the optional steps per configuration. It never contains `group_leave()`. |
| TaskSpec.AllocateFails | os/kernel/task/task_init.c:147-151 | If `group_allocate()` fails, it is the only call (no `group_leave()`), the error code is its negated return value, and the result is ERROR. |
| TaskSpec.SetupFilesFails | os/kernel/task/task_init.c:157-161 | If `group_setuptaskfiles()` fails, the stack is never bound. `group_leave()` runs once and last when groups are configured. The error code is the negated return value. |
| TaskSpec.SchedSetupFails | os/kernel/task/task_init.c:170-174 | If `task_schedsetup()` fails, the stack has been bound and nothing after the scheduler set-up runs except `group_leave()`, which runs when groups are configured. The error code is the errno `task_schedsetup()` left. |
| TaskSpec.GroupInitializeFails | os/kernel/task/task_init.c:183-187 | If `group_initialize()` fails, every set-up step has run and `group_leave()` follows once. The error code is the negated return value. |
| TaskSpec.GotoRunIsUnwind | os/kernel/task/task_init.c:146-198 | For every configuration and every combination of collaborator results, the goto-based control flow makes the same calls in the same order as the unwind-on-first-failure driver, with the same status and error code. |
| TaskSpec.JoinOnlyAfterSetup | os/kernel/task/task_init.c:166-188 | `group_initialize()` is called only with groups configured and after a successful `task_schedsetup()`. Every occurrence of it is preceded by `up_use_stack()`, `task_schedsetup()` and `task_argsetup()`. |
| TaskSpec.LeaveOnlyOnRollback | os/kernel/task/task_init.c:191-193 | `group_leave()` is called if and only if groups are configured, allocation succeeded and the run failed. When it is called, it is the last call and occurs only once. |
| TaskSpec.DiscardedResultsIgnored | os/kernel/task/task_init.c:166-178 | Changing what `task_argsetup()` and `up_use_stack()` return changes neither the calls made nor the outcome. Argument set-up can never make `task_init()` fail. |
| TaskSpec.CallsIsMembership | os/kernel/task/task_init.c:146-188 | A closed-form condition, per collaborator, for whether it is called. For example, the stack is bound exactly when group allocation and descriptor set-up, as configured, succeeded. |

## Left out

- The internals of `group_allocate()`, `group_setuptaskfiles()`, `up_use_stack()`, `task_schedsetup()`, `task_argsetup()`, `group_initialize()` and `group_leave()` are not part of this model. Their return values are oracle inputs. Their effect on the TCB is reduced to the fields of `Tcb`.
- Priority-range validation inside `task_schedsetup()` is not modelled. It shows up only as a possible failure result.
- TaskInit.Kernel.ArgSetup: does not model the truncation of the argument list to `CONFIG_MAX_TASK_ARG` or the copying of strings. The source only mentions that bound in a comment; the argument list is stored as given.
- TaskInit.Kernel.AllocateGroup: the `tcb->flags` argument of `group_allocate()` is not passed, because its effect lies inside `group_allocate()`.
- TaskInit.Kernel.SchedSetup: the `task_start` trampoline passed to `task_schedsetup()` is not modelled; only the application entry point is recorded.
- errno writes that a collaborator might make on success are not modelled. Only `task_schedsetup()` writes errno, and only on failure.
- The `DEBUGASSERT` at lines 140-142 becomes a precondition of `TaskInit.Kernel.TaskInit`. A null TCB cannot be expressed, because Dafny references here are non-null.
- The three compile-time switches are independent booleans. How the kernel's headers derive `HAVE_TASK_GROUP` from other options is not part of this model. With descriptors configured but no task group, a failure after `group_setuptaskfiles()` releases nothing, which is what the code does.
- Integer width is not modelled. Collaborator return values and error codes are unbounded integers, not C `int`. So `errcode = -ret` at lines 149, 159 and 185 never overflows in the model. The overflow of `-ret` when a collaborator returns INT_MIN is not captured, and neither is the range limit of `int`. This affects the error codes stated by TaskSpec.AllocateFails, TaskSpec.SetupFilesFails, TaskSpec.GroupInitializeFails, TaskSpec.GotoRun and TaskInit.Kernel.TaskInit.
- The stack is a region, a start address plus a size. Stack-frame layout and the architecture's use of that memory are not modelled.
- Activation, ready-queue insertion and `task_activate()` happen outside this function and are not modelled.
- Concurrency is not modelled. The function runs as single-threaded straight-line code.
- The caller's duty to free the TCB and the stack after a failure is reflected only as an absence. No operation in the model releases either, and `TaskInit.Kernel.TaskInit` keeps the stack bound on every failing path after `up_use_stack()`.
