/**
 * task_init(): prepare a caller-allocated task control block (TCB) and
 * stack for later activation, in the imperative form of the C function. The
 * collaborators it calls are methods whose effect on the TCB is abstract and
 * whose return values are inputs; every call is recorded in a ghost trace.
 * The goto-based rollback is written with labelled blocks and `break`.
 */
module TaskInit {
  import opened TaskSpec

  /** The type field of a TCB's flags (TCB_FLAG_TTYPE_MASK). */
  datatype TaskType = Task | KernelThread | Pthread

  /** How far a TCB is associated with an execution group. */
  datatype GroupState = NoGroup | Allocated | Joined

  /** Caller-owned stack memory: its start address and its size in bytes. */
  datatype StackRegion = StackRegion(base: nat, size: nat)

  /** The parts of a task control block that task_init() and its collaborators set. */
  class Tcb {
    var ttype: TaskType
    var group: GroupState
    var filesReady: bool            // file and socket descriptors attached to the group
    var stack: Option<StackRegion>  // the stack bound by up_use_stack()
    var schedReady: bool            // task_schedsetup() has succeeded
    var priority: int
    var entry: nat
    var name: string
    var args: seq<string>

    /** A TCB as the caller hands it over: zeroed, with its type already chosen. */
    constructor (ttype: TaskType)
      ensures this.ttype == ttype && group == NoGroup && !filesReady && stack == None
      ensures !schedReady && priority == 0 && entry == 0 && name == [] && args == []
    {
      this.ttype := ttype;
      group := NoGroup;
      filesReady := false;
      stack := None;
      schedReady := false;
      priority := 0;
      entry := 0;
      name := [];
      args := [];
    }
  }

  /**
   * The calling context: the configuration the kernel was built with, the
   * caller's errno, and the ghost record of the collaborators called so far.
   */
  class Kernel {
    const cfg: Config
    var errno: int
    ghost var trace: seq<Op>

    constructor (cfg: Config)
      ensures this.cfg == cfg && errno == 0 && trace == []
    {
      this.cfg := cfg;
      errno := 0;
      trace := [];
    }

    /** get_errno(): the caller's current errno. */
    method GetErrno() returns (e: int)
      ensures e == errno
    {
      e := errno;
    }

    /** set_errno(): overwrite the caller's errno. */
    method SetErrno(e: int)
      modifies this`errno
      ensures errno == e
    {
      errno := e;
    }

    /** group_allocate(): create the task's group; `result` is what it returns. */
    method AllocateGroup(tcb: Tcb, result: int) returns (ret: int)
      modifies this`trace, tcb`group
      ensures ret == result && trace == old(trace) + [GroupAllocate]
      ensures tcb.group == if ret < 0 then old(tcb.group) else Allocated
    {
      ret := result;
      trace := trace + [GroupAllocate];
      if ret >= 0 {
        tcb.group := Allocated;
      }
    }

    /** group_setuptaskfiles(): attach file and socket descriptors to the group. */
    method SetupTaskFiles(tcb: Tcb, result: int) returns (ret: int)
      modifies this`trace, tcb`filesReady
      ensures ret == result && trace == old(trace) + [GroupSetupTaskFiles]
      ensures tcb.filesReady == (old(tcb.filesReady) || ret >= 0)
    {
      ret := result;
      trace := trace + [GroupSetupTaskFiles];
      if ret >= 0 {
        tcb.filesReady := true;
      }
    }

    /** up_use_stack(): bind the caller's stack to the TCB. */
    method UseStack(tcb: Tcb, stack: StackRegion, result: int) returns (ret: int)
      modifies this`trace, tcb`stack
      ensures ret == result && trace == old(trace) + [UpUseStack]
      ensures tcb.stack == Some(stack)
    {
      ret := result;
      trace := trace + [UpUseStack];
      tcb.stack := Some(stack);
    }

    /**
     * task_schedsetup(): record priority, entry point and task type. On
     * failure it leaves the TCB as it was and sets errno to `errnoOnFailure`.
     */
    method SchedSetup(tcb: Tcb, priority: int, entry: nat, ttype: TaskType, result: int, errnoOnFailure: int)
      returns (ret: int)
      modifies this`trace, this`errno, tcb`schedReady, tcb`priority, tcb`entry, tcb`ttype
      ensures ret == result && trace == old(trace) + [TaskSchedSetup]
      ensures ret < OK ==> errno == errnoOnFailure && tcb.schedReady == old(tcb.schedReady)
                           && tcb.priority == old(tcb.priority) && tcb.entry == old(tcb.entry)
                           && tcb.ttype == old(tcb.ttype)
      ensures ret >= OK ==> errno == old(errno) && tcb.schedReady
                            && tcb.priority == priority && tcb.entry == entry && tcb.ttype == ttype
    {
      ret := result;
      trace := trace + [TaskSchedSetup];
      if ret < OK {
        errno := errnoOnFailure;
      } else {
        tcb.schedReady, tcb.priority, tcb.entry, tcb.ttype := true, priority, entry, ttype;
      }
    }

    /** task_argsetup(): copy the task's name and arguments into the TCB. */
    method ArgSetup(tcb: Tcb, name: string, argv: seq<string>, result: int) returns (ret: int)
      modifies this`trace, tcb`name, tcb`args
      ensures ret == result && trace == old(trace) + [TaskArgSetup]
      ensures tcb.name == name && tcb.args == argv
    {
      ret := result;
      trace := trace + [TaskArgSetup];
      tcb.name, tcb.args := name, argv;
    }

    /** group_initialize(): make the task a member of its group. */
    method InitializeGroup(tcb: Tcb, result: int) returns (ret: int)
      modifies this`trace, tcb`group
      ensures ret == result && trace == old(trace) + [GroupInitialize]
      ensures tcb.group == if ret < 0 then old(tcb.group) else Joined
    {
      ret := result;
      trace := trace + [GroupInitialize];
      if ret >= 0 {
        tcb.group := Joined;
      }
    }

    /**
     * group_leave(): detach the task from its group and release the group
     * with its descriptors. On a TCB that has no group it changes nothing.
     */
    method LeaveGroup(tcb: Tcb)
      modifies this`trace, tcb`group, tcb`filesReady
      ensures trace == old(trace) + [GroupLeave]
      ensures tcb.group == NoGroup && !tcb.filesReady
      ensures old(tcb.group) == NoGroup && !old(tcb.filesReady) ==> unchanged(tcb)
    {
      trace := trace + [GroupLeave];
      tcb.group, tcb.filesReady := NoGroup, false;
    }

    /**
     * task_init(): run the set-up steps in order and, on the first failure,
     * leave the group (when groups are configured and one was allocated),
     * set errno and return ERROR. The calls made, the result and errno are
     * those of GotoRun, which GotoRunIsUnwind proves equal to the reference
     * semantics Run; the TCB keeps every effect that is not rolled back, in
     * particular the stack binding, and is never released here.
     */
    method TaskInit(tcb: Tcb, name: string, priority: int, stack: StackRegion, entry: nat,
                    argv: seq<string>, o: Oracle) returns (r: int)
      requires cfg.pthreadsEnabled ==> tcb.ttype != Pthread
      modifies this`trace, this`errno, tcb
      ensures r == GotoRun(cfg, o).Ret()
      ensures trace == old(trace) + GotoRun(cfg, o).trace
      ensures errno == match GotoRun(cfg, o).status
                       case Succeeded => old(errno)
                       case Failed(e) => e
      ensures tcb.stack == if Calls(cfg, o, UpUseStack) then Some(stack) else old(tcb.stack)
      ensures Calls(cfg, o, TaskArgSetup) ==>
        tcb.schedReady && tcb.priority == priority && tcb.entry == entry && tcb.ttype == Task
        && tcb.name == name && tcb.args == argv
      ensures !Calls(cfg, o, TaskArgSetup) ==>
        tcb.schedReady == old(tcb.schedReady) && tcb.priority == old(tcb.priority)
        && tcb.entry == old(tcb.entry) && tcb.ttype == old(tcb.ttype)
        && tcb.name == old(tcb.name) && tcb.args == old(tcb.args)
      ensures tcb.group == if !cfg.haveTaskGroup || o.allocateRet < 0 then old(tcb.group)
                           else if AllSucceed(cfg, o) then Joined
                           else NoGroup
      ensures tcb.filesReady == if Calls(cfg, o, GroupLeave) then false
                                else old(tcb.filesReady) || (Calls(cfg, o, GroupSetupTaskFiles) && o.setupFilesRet >= 0)
    {
      // Every call below extends the trace as GotoTrace spells out, call by call.
      ghost var expected := GotoTrace(trace, cfg, o);
      var errcode: int;
      var ret: int;
      label errout: {
        label errout_with_group: {
          if cfg.haveTaskGroup {
            ret := AllocateGroup(tcb, o.allocateRet);
            if ret < 0 {
              errcode := -ret;
              break errout;
            }
          }
          if cfg.haveDescriptors {
            ret := SetupTaskFiles(tcb, o.setupFilesRet);
            if ret < 0 {
              errcode := -ret;
              break errout_with_group;
            }
          }
          ret := UseStack(tcb, stack, o.useStackRet);
          ret := SchedSetup(tcb, priority, entry, Task, o.schedSetupRet, o.schedErrno);
          if ret < OK {
            errcode := GetErrno();
            break errout_with_group;
          }
          ret := ArgSetup(tcb, name, argv, o.argSetupRet);
          if cfg.haveTaskGroup {
            ret := InitializeGroup(tcb, o.initializeRet);
            if ret < 0 {
              errcode := -ret;
              break errout_with_group;
            }
          }
          return OK;
        }
        if cfg.haveTaskGroup {
          LeaveGroup(tcb);
        }
      }
      SetErrno(errcode);
      return ERROR;
    }
  }
}
