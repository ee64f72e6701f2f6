/**
 * The two states the Cavium handler inserts between fetching parameters and
 * changing them: `CaviumDisableAdminEnableState` sends a SetParameterValues
 * request that turns the FAP's AdminState off, and
 * `CaviumWaitDisableAdminEnableState` classifies the device's answer.
 */
module CaviumStates {
  import opened Optional
  import opened Tr069Text
  import opened CaviumDataModel

  /** The state names the Cavium transition table uses; each stands for the string in its comment. */
  datatype StateName =
    | Disconnected           // 'disconnected'
    | GetTransientParams     // 'get_transient_params'
    | WaitGetTransientParams // 'wait_get_transient_params'
    | GetParams              // 'get_params'
    | WaitGetParams          // 'wait_get_params'
    | DisableAdmin           // 'disable_admin'
    | WaitDisableAdmin       // 'wait_disable_admin'
    | DeleteObjs             // 'delete_objs'
    | AddObjs                // 'add_objs'
    | SetParams              // 'set_params'
    | WaitSetParams          // 'wait_set_params'
    | Reboot                 // 'reboot'
    | WaitReboot             // 'wait_reboot'
    | WaitPostRebootInform   // 'wait_post_reboot_inform'
    | UnexpectedInform       // 'unexpected_inform'
    | UnexpectedFault        // 'unexpected_fault'
    | GetObjParams           // 'get_obj_params'
    | WaitGetParameters      // 'wait_get_parameters'
    | WaitRebootDelay        // 'wait_reboot_delay'
    | WaitEmpty              // 'wait_empty'

  /**
   * An inbound message, as far as the two states tell messages apart: the
   * empty placeholder input, a CWMP Fault (only its FaultString reaches the
   * outcome), a SetParameterValuesResponse with its Status, or anything else.
   */
  datatype AcsMessage =
    | DummyInput
    | Fault(faultString: string)
    | SetParameterValuesResponse(status: int)
    | OtherMessage

  /**
   * What `read_msg` makes of a message: `AcsReadMsgResult(False, None)`,
   * `AcsReadMsgResult(True, next)`, or a raised `Tr069Error` with its text.
   */
  datatype ReadResult = Rejected | Accepted(next: Option<StateName>) | Failed(text: string)

  /** One name/value pair of a SetParameterValues request, with the value's XML schema type. */
  datatype ParameterValueStruct = ParameterValueStruct(name: string, valueType: string, data: string)

  /** A SetParameterValues request: the SOAP array type of its list, and the list. */
  datatype SetParameterValues = SetParameterValues(arrayType: string, parameterList: seq<ParameterValueStruct>)

  /** `AcsMsgAndTransition`: the request to send and the state to move to. */
  datatype MsgAndTransition = MsgAndTransition(request: SetParameterValues, next: Option<StateName>)

  /** Python's `str` of a configuration value. */
  function PyStr(value: Value): string {
    match value
    case BoolValue(b) => if b then "True" else "False"
    case IntValue(n) => FormatInt(n)
    case StringValue(s) => s
  }

  const FaultErrorPrefix: string := "Received Fault in response to SetParameterValues (faultstring = "
  const StatusErrorPrefix: string := "Received SetParameterValuesResponse with Status="

  /** The text of the error raised for a non-zero Status. */
  function StatusErrorText(status: int): string {
    StatusErrorPrefix + FormatInt(status)
  }

  /** The status can be read back from its error text. */
  lemma StatusErrorNamesStatus(status: int)
    ensures StatusErrorPrefix <= StatusErrorText(status)
    ensures ParseInt(StatusErrorText(status)[|StatusErrorPrefix|..]) == status
  {
    assert StatusErrorText(status)[|StatusErrorPrefix|..] == FormatInt(status);
    ParseFormatInt(status);
  }

  /** `CaviumDisableAdminEnableState`: turns AdminState off before the other parameters are set. */
  datatype DisableAdminEnableState = DisableAdminEnableState(doneTransition: StateName)
  {
    /** `read_msg`: only the placeholder input is handled, and it names no transition. */
    function ReadMsg(message: AcsMessage): (r: ReadResult)
      ensures r.Accepted? <==> message.DummyInput?
      ensures r.Rejected? <==> !message.DummyInput?
      ensures r.Accepted? ==> r.next == None
    {
      if message.DummyInput? then Accepted(None) else Rejected
    }

    /**
     * `get_msg`: a SetParameterValues carrying one struct that sets the
     * catalog's AdminState path to the string "False", then `when_done`.
     */
    function GetMsg(): (r: MsgAndTransition)
      ensures |r.request.parameterList| == 1
      ensures r.request.arrayType == "cwmp:ParameterValueStruct[1]"
      ensures r.request.parameterList[0]
           == ParameterValueStruct(FapServicePath + "FAPControl.LTE.AdminState", "xsd:string", "False")
      ensures GetParameter(Base(AdminState)) == Some(TrParam(r.request.parameterList[0].name, false, Boolean, false))
      ensures r.next == Some(doneTransition)
    {
      AdminStateRow();
      var adminPath := GetParameter(Base(AdminState)).value.path;
      var adminValue := TransformForEnb(Base(AdminState), BoolValue(false)).value;
      var paramValues := map[adminPath := adminValue];
      var nameValue := ParameterValueStruct(adminPath, "xsd:string", PyStr(adminValue));
      var request := SetParameterValues("cwmp:ParameterValueStruct[" + FormatInt(|paramValues|) + "]", [nameValue]);
      MsgAndTransition(request, Some(doneTransition))
    }
  }

  /** `CaviumWaitDisableAdminEnableState`: waits for the answer to the AdminState request. */
  datatype WaitDisableAdminEnableState = WaitDisableAdminEnableState(doneTransition: StateName)
  {
    /**
     * `read_msg`: a Fault is checked first and always raises an error naming
     * its FaultString; any other message that is not a SetParameterValuesResponse
     * is rejected; a response raises an error unless its Status is 0, and is
     * then accepted with `when_done`.
     */
    function ReadMsg(message: AcsMessage): (r: ReadResult)
      ensures message.Fault? ==> r.Failed? && Contains(r.text, message.faultString)
      ensures r.Rejected? <==> !message.Fault? && !message.SetParameterValuesResponse?
      ensures r.Accepted? <==> message.SetParameterValuesResponse? && message.status == 0
      ensures r.Accepted? ==> r.next == Some(doneTransition)
      ensures message.SetParameterValuesResponse? && message.status != 0 ==> r == Failed(StatusErrorText(message.status))
    {
      match message
      case Fault(faultString) =>
        ContainsMiddle(FaultErrorPrefix, faultString, ")");
        Failed(FaultErrorPrefix + faultString + ")")
      case SetParameterValuesResponse(status) =>
        if status != 0 then Failed(StatusErrorText(status)) else Accepted(Some(doneTransition))
      case _ => Rejected
    }
  }
}
