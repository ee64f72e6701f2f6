/**
 * The Cavium eNodeB handler (`CaviumHandler`): its state-transition table,
 * the special state names the generic machine asks for, the current-state
 * pointer that `transition` moves, and the connection status derived from
 * it.
 */
module Cavium {
  import opened Optional
  import opened CaviumStates

  /** The keyword arguments through which a state object is told its successors. */
  datatype Trigger = WhenDone | WhenGet | WhenGetObjParams | WhenDelete | WhenAdd | WhenSet | WhenSkip | WhenTimeout

  /** The state classes the table instantiates. */
  datatype StateClass =
    | DisconnectedState
    | SendGetTransientParametersState
    | WaitGetTransientParametersState
    | GetParametersState
    | WaitGetParametersState
    | CaviumDisableAdminEnableState
    | CaviumWaitDisableAdminEnableState
    | DeleteObjectsState
    | AddObjectsState
    | SetParameterValuesNotAdminState
    | WaitSetParameterValuesState
    | SendRebootState
    | WaitRebootResponseState
    | WaitInformMRebootState
    | UnexpectedInformState
    | ErrorState

  /** A state object of the table: its class and the successor each keyword argument names. */
  datatype AcsState = AcsState(stateClass: StateClass, successors: map<Trigger, StateName>)

  /** `_state_map`: every state name the handler defines, with its state object. */
  function StateMap(): map<StateName, AcsState> {
    map[
      Disconnected := AcsState(DisconnectedState, map[WhenDone := GetTransientParams]),
      GetTransientParams := AcsState(SendGetTransientParametersState, map[WhenDone := WaitGetTransientParams]),
      WaitGetTransientParams := AcsState(WaitGetTransientParametersState,
        map[WhenGet := GetParams, WhenGetObjParams := GetObjParams, WhenDelete := DeleteObjs,
            WhenAdd := AddObjs, WhenSet := SetParams, WhenSkip := GetTransientParams]),
      GetParams := AcsState(GetParametersState, map[WhenDone := WaitGetParameters]),
      WaitGetParams := AcsState(WaitGetParametersState, map[WhenDone := DisableAdmin]),
      DisableAdmin := AcsState(CaviumDisableAdminEnableState, map[WhenDone := WaitDisableAdmin]),
      WaitDisableAdmin := AcsState(CaviumWaitDisableAdminEnableState, map[WhenDone := DeleteObjs]),
      DeleteObjs := AcsState(DeleteObjectsState, map[WhenAdd := AddObjs, WhenSkip := SetParams]),
      AddObjs := AcsState(AddObjectsState, map[WhenDone := SetParams]),
      SetParams := AcsState(SetParameterValuesNotAdminState, map[WhenDone := WaitSetParams]),
      WaitSetParams := AcsState(WaitSetParameterValuesState, map[WhenDone := GetTransientParams]),
      Reboot := AcsState(SendRebootState, map[WhenDone := WaitReboot]),
      WaitReboot := AcsState(WaitRebootResponseState, map[WhenDone := WaitPostRebootInform]),
      WaitPostRebootInform := AcsState(WaitInformMRebootState,
        map[WhenDone := WaitRebootDelay, WhenTimeout := Disconnected]),
      UnexpectedInform := AcsState(UnexpectedInformState, map[WhenDone := WaitEmpty]),
      UnexpectedFault := AcsState(ErrorState, map[])
    ]
  }

  /** `disconnected_state_name`, `unexpected_inform_state_name` and `unexpected_fault_state_name`. */
  const DisconnectedStateName: StateName := Disconnected
  const UnexpectedInformStateName: StateName := UnexpectedInform
  const UnexpectedFaultStateName: StateName := UnexpectedFault

  /** The special names the generic machine asks for, and the state `reboot_asap` moves to, are all defined. */
  lemma SpecialNamesAreKeys()
    ensures DisconnectedStateName in StateMap()
    ensures UnexpectedInformStateName in StateMap()
    ensures UnexpectedFaultStateName in StateMap()
    ensures Reboot in StateMap()
    ensures StateMap()[DisconnectedStateName].stateClass == DisconnectedState
    ensures StateMap()[UnexpectedFaultStateName].stateClass == ErrorState
  {
  }

  /** Every successor name some state object of the table is given. */
  function Successors(): set<StateName> {
    set name, trigger | name in StateMap() && trigger in StateMap()[name].successors
      :: StateMap()[name].successors[trigger]
  }

  /** The four names 'get_obj_params', 'wait_get_parameters', 'wait_reboot_delay' and 'wait_empty' are given as successors. */
  lemma DanglingNamesAreSuccessors()
    ensures {GetObjParams, WaitGetParameters, WaitRebootDelay, WaitEmpty} <= Successors()
  {
    assert StateMap()[WaitGetTransientParams].successors[WhenGetObjParams] == GetObjParams;
    assert StateMap()[GetParams].successors[WhenDone] == WaitGetParameters;
    assert StateMap()[WaitPostRebootInform].successors[WhenDone] == WaitRebootDelay;
    assert StateMap()[UnexpectedInform].successors[WhenDone] == WaitEmpty;
  }

  /** Every other successor name is a key of the table. */
  lemma OtherSuccessorsAreKeys(name: StateName)
    requires name in Successors()
    requires name !in {GetObjParams, WaitGetParameters, WaitRebootDelay, WaitEmpty}
    ensures name in StateMap()
  {
  }

  /**
   * Exactly four successor names are not keys of the table: 'get_obj_params',
   * 'wait_get_parameters' (the key is 'wait_get_params'), 'wait_reboot_delay'
   * and 'wait_empty'.
   */
  lemma DanglingSuccessors(name: StateName)
    ensures name in Successors() && name !in StateMap()
        <==> name in {GetObjParams, WaitGetParameters, WaitRebootDelay, WaitEmpty}
  {
    DanglingNamesAreSuccessors();
    if name in Successors() && name !in {GetObjParams, WaitGetParameters, WaitRebootDelay, WaitEmpty} {
      OtherSuccessorsAreKeys(name);
    }
  }

  /** The successor names given to the states other than 'wait_get_params' and 'disable_admin'. */
  function SuccessorsOutsideChain(): set<StateName> {
    set name, trigger | name in StateMap() && name != WaitGetParams && name != DisableAdmin
                        && trigger in StateMap()[name].successors
      :: StateMap()[name].successors[trigger]
  }

  /** 'wait_get_params' is nobody's successor: only the dangling 'wait_get_parameters' would lead there. */
  lemma WaitGetParamsNotSuccessor()
    ensures WaitGetParams !in Successors()
  {
  }

  /** 'disable_admin' is named only by 'wait_get_params'. */
  lemma DisableAdminOnlyAfterWaitGetParams()
    ensures DisableAdmin !in SuccessorsOutsideChain()
  {
  }

  /** 'wait_disable_admin' is named only by 'disable_admin'. */
  lemma WaitDisableAdminOnlyAfterDisableAdmin()
    ensures WaitDisableAdmin !in SuccessorsOutsideChain()
  {
  }

  /**
   * No state outside the admin-disable chain ('wait_get_params', then
   * 'disable_admin', then 'wait_disable_admin') names a state of the chain,
   * and 'disconnected' is outside it; so following successors from
   * 'disconnected' never reaches the chain.
   */
  lemma AdminDisableChainUnreachable()
    ensures WaitGetParams !in SuccessorsOutsideChain()
    ensures DisableAdmin !in SuccessorsOutsideChain()
    ensures WaitDisableAdmin !in SuccessorsOutsideChain()
    ensures Disconnected != WaitGetParams && Disconnected != DisableAdmin && Disconnected != WaitDisableAdmin
  {
    WaitGetParamsNotSuccessor();
    assert SuccessorsOutsideChain() <= Successors();
    DisableAdminOnlyAfterWaitGetParams();
    WaitDisableAdminOnlyAfterDisableAdmin();
  }

  /** Only the 'disconnected' entry is a `DisconnectedState`. */
  lemma DisconnectedStateUnique(name: StateName)
    requires name in StateMap()
    ensures StateMap()[name].stateClass == DisconnectedState <==> name == DisconnectedStateName
  {
  }

  /**
   * The admin-disable pair sits between fetching and changing parameters:
   * the request state moves on to the waiting state, which accepts a zero
   * Status by moving on to 'delete_objs', and both targets are defined.
   */
  lemma AdminDisablePairWired()
    ensures StateMap()[WaitGetParams].successors == map[WhenDone := DisableAdmin]
    ensures StateMap()[DisableAdmin] == AcsState(CaviumDisableAdminEnableState, map[WhenDone := WaitDisableAdmin])
    ensures StateMap()[WaitDisableAdmin] == AcsState(CaviumWaitDisableAdminEnableState, map[WhenDone := DeleteObjs])
    ensures DisableAdminEnableState(WaitDisableAdmin).GetMsg().next == Some(WaitDisableAdmin)
    ensures WaitDisableAdminEnableState(DeleteObjs).ReadMsg(SetParameterValuesResponse(0)) == Accepted(Some(DeleteObjs))
    ensures WaitDisableAdmin in StateMap() && DeleteObjs in StateMap()
  {
  }

  /** A Cavium handler: the table and the name of the current state. */
  class CaviumHandler {
    var stateMap: map<StateName, AcsState>
    var stateName: StateName

    /** The table is the Cavium one and the current state is one of its entries. */
    ghost predicate Valid()
      reads this
    {
      stateMap == StateMap() && stateName in stateMap
    }

    /** A fresh handler: the table is built and the session starts disconnected. */
    constructor()
      ensures Valid()
      ensures stateName == DisconnectedStateName
    {
      stateMap := map[];
      stateName := DisconnectedStateName;
      new;
      InitStateMap();
    }

    /** `_init_state_map`: installs the Cavium table. */
    method InitStateMap()
      modifies this
      ensures stateMap == StateMap()
      ensures stateName == old(stateName)
    {
      stateMap := StateMap();
    }

    /** The current state object (`self.state`). */
    function State(): AcsState
      reads this
      requires Valid()
    {
      stateMap[stateName]
    }

    /**
     * `transition(name)`: moves to a defined state; a name the table does
     * not define is a configuration error that leaves the state unchanged.
     */
    method Transition(name: StateName) returns (ok: bool)
      modifies this
      ensures ok <==> name in old(stateMap)
      ensures stateName == (if ok then name else old(stateName))
      ensures stateMap == old(stateMap)
    {
      ok := name in stateMap;
      if ok {
        stateName := name;
      }
    }

    /** `reboot_asap`: moves straight to the reboot request, whatever the current state. */
    method RebootAsap()
      requires Valid()
      modifies this
      ensures Valid()
      ensures stateName == Reboot
    {
      var ok := Transition(Reboot);
    }

    /** `is_enodeb_connected`: false exactly when the session is in the disconnected state. */
    function IsEnodebConnected(): (connected: bool)
      reads this
      requires Valid()
      ensures connected <==> stateName != DisconnectedStateName
    {
      DisconnectedStateUnique(stateName);
      State().stateClass != DisconnectedState
    }
  }
}
