# Cavium eNodeB handler, session credit and LTE band lookup, modelled in Dafny

This project models three pieces of magma, a mobile-core gateway that manages
LTE radio equipment:

- **The Cavium eNodeB handler** (`enodebd/devices/cavium.py`). enodebd runs a
  TR-069/CWMP session with each eNodeB it manages.
  - The handler gives that session its transition table: every state name,
    its state class, and the successor names each state is told about.
  - It inserts two Cavium-only states between fetching and setting
    parameters. The first sends a SetParameterValues request that turns the
    FAP's `AdminState` off. The second classifies the device's answer.
  - Its data model `CaviumTrDataModel` is a read-only catalog from abstract
    parameter names to device paths under `Device.`. A loop adds six numbered
    PLMN list objects, each with four children. Accessors derive the name
    lists enodebd asks for.
  - Its configuration postprocessor forces a barred cell and an enabled admin
    state into every desired configuration.
- **`SessionCredit`** (`session_manager/SessionCredit.h`): nine unsigned
  64-bit buckets of used, allowed, reporting and reported volume for one
  charging key. The header's comments document how each mutator moves volume
  between the buckets.
- **`GetBand`**: the lookup from a downlink EARFCN to its E-UTRA operating
  band, per Table 5.7.3-1 in section 5.7.3 of 3GPP TS 36.101. Its test pins
  concrete points and out-of-range errors.

Structure:

- `Optional` and `Tr069Text` supply an option type and Python's `%d`
  decimal formatting, with its read-back.
- `CaviumDataModel`, `CaviumStates`, `Cavium` and `ConfigPostprocessor`
  follow `cavium.py` from the catalog up to the handler.
- `Credit` holds `SessionCredit` as a class over a nine-element array. Each
  mutator is proved against a function on the bucket sequence, and the
  documented effects are lemmas about those functions.
- `LteBands` holds the band table and the lookup.

The handler's transition table names four successors that are not keys of the
table: `get_obj_params`, `wait_get_parameters` (the key is `wait_get_params`),
`wait_reboot_delay` and `wait_empty`. The model follows the code as written:
`Cavium.DanglingSuccessors` proves that these four, and only these, dangle.
One consequence is that no entry names `wait_get_params` as its successor
(only the dangling `wait_get_parameters` would lead there), so the Cavium
admin-disable chain `wait_get_params`, `disable_admin`, `wait_disable_admin`
cannot be reached from `disconnected` by following successors:
`Cavium.AdminDisableChainUnreachable` states this.

## Model

| member | source | states |
|---|---|---|
| Tr069Text.FormatNat | lte/gateway/python/magma/enodebd/devices/cavium.py:237-247 | Python's `%d` of a natural number is a digit string with no leading zero, and starts with '0' exactly for 0 |
| Tr069Text.FormatInt | lte/gateway/python/magma/enodebd/devices/cavium.py:237-247 | Python's `%d` of an index starts with '-' exactly when the index is negative, and the digits after the sign have no leading zero |
| Tr069Text.FormatParseNat | lte/gateway/python/magma/enodebd/devices/cavium.py:237-238 | every digit string without a leading zero is the `%d` text of the number it denotes, so `%d` has no other spelling |
| Tr069Text.ParseFormatInt | lte/gateway/python/magma/enodebd/devices/cavium.py:237-238 | the decimal text of any integer reads back as that integer |
| Tr069Text.FormatIntInjective | lte/gateway/python/magma/enodebd/devices/cavium.py:236-247 | different PLMN indices are written as different texts |
| CaviumDataModel.NumberedNamesSpec | lte/gateway/python/magma/enodebd/devices/cavium.py:236-247 | the first n loop iterations insert exactly the five numbered names of each index 1..n |
| CaviumDataModel.CatalogNames | lte/gateway/python/magma/enodebd/devices/cavium.py:175-247 | `PARAMETERS` holds exactly the 29 literal names and the numbered names of indices 1..6 |
| CaviumDataModel.CatalogRow | lte/gateway/python/magma/enodebd/devices/cavium.py:175-247 | every catalog name carries the row the literal or the loop wrote for it |
| CaviumDataModel.PlmnLoopRows | lte/gateway/python/magma/enodebd/devices/cavium.py:237-247 | for index i, the catalog's rows are the five TrParams the loop body writes: the list object `PLMNList.i.` and its children CellReservedForOperatorUse, Enable and IsPrimary (booleans) and PLMNID (a string) |
| CaviumDataModel.BuildParameters | lte/gateway/python/magma/enodebd/devices/cavium.py:175-247 | the dictionary literal followed by six loop iterations builds exactly the catalog |
| CaviumDataModel.PathUnderDevice | lte/gateway/python/magma/enodebd/devices/cavium.py:173-247 | every row's path starts with `Device.` |
| CaviumDataModel.AllPathsUnderDevice | lte/gateway/python/magma/enodebd/devices/cavium.py:173-247 | every row's path starts with `Device.`, for all names at once |
| CaviumDataModel.NumberedSubPathDecodes | lte/gateway/python/magma/enodebd/devices/cavium.py:237-247 | a numbered row's path, for a one-digit index, identifies its field and index |
| CaviumDataModel.SubPathDecodes | lte/gateway/python/magma/enodebd/devices/cavium.py:177-247 | every catalog row's path decodes back to the name that carries it |
| CaviumDataModel.PathsDistinct | lte/gateway/python/magma/enodebd/devices/cavium.py:175-247 | two different catalog names never share a device path |
| CaviumDataModel.AllPathsDistinct | lte/gateway/python/magma/enodebd/devices/cavium.py:175-247 | the catalog is one-to-one from names to paths |
| CaviumDataModel.PlmnChildBeneath | lte/gateway/python/magma/enodebd/devices/cavium.py:236-247 | each child of PLMN object i is a scalar row whose path lies strictly below the object's path |
| CaviumDataModel.PlmnEntry | lte/gateway/python/magma/enodebd/devices/cavium.py:237-238 | PLMN object i (1..6) is the object row at `FAPSERVICE_PATH + 'CellConfig.LTE.EPC.PLMNList.' + i + '.'`, with its four scalar children below it |
| CaviumDataModel.PlmnObjects | lte/gateway/python/magma/enodebd/devices/cavium.py:235-238 | PLMN object i is in the catalog exactly when 1 <= i <= 6 |
| CaviumDataModel.GetNumPlmns | lte/gateway/python/magma/enodebd/devices/cavium.py:279-281 | the count returned is the number of PLMN list objects: object i exists exactly for 1 <= i <= count |
| CaviumDataModel.GetParameter | lte/gateway/python/magma/enodebd/devices/cavium.py:258-260 | `PARAMETERS.get`: the row of a catalog name, None for any other name |
| CaviumDataModel.GetLoadParameters | lte/gateway/python/magma/enodebd/devices/cavium.py:272-277 | exactly `[DEVICE]`: a single object row whose path is a prefix of every catalog path, so loading it loads all parameters |
| CaviumDataModel.RootIsDevice | lte/gateway/python/magma/enodebd/devices/cavium.py:177-277 | DEVICE is the only catalog name whose path every catalog path extends |
| CaviumDataModel.AdminStateRow | lte/gateway/python/magma/enodebd/devices/cavium.py:200 | ADMIN_STATE is the boolean row, with False as its second flag, at `FAPSERVICE_PATH + 'FAPControl.LTE.AdminState'` |
| CaviumDataModel.BaseKeyOrderNames | lte/gateway/python/magma/enodebd/devices/cavium.py:175-233 | the dictionary literal's key order lists exactly the literal names |
| CaviumDataModel.PlmnKeyOrderNames | lte/gateway/python/magma/enodebd/devices/cavium.py:236-247 | the loop's insertion order lists exactly the numbered names of indices 1..n |
| CaviumDataModel.KeyOrderNames | lte/gateway/python/magma/enodebd/devices/cavium.py:175-247 | `PARAMETERS.keys()` in insertion order lists exactly the catalog names |
| CaviumDataModel.FilterListed | lte/gateway/python/magma/enodebd/devices/cavium.py:287-289 | the filter keeps exactly the names its predicate accepts and never lengthens the list |
| CaviumDataModel.GetParameterNames | lte/gateway/python/magma/enodebd/devices/cavium.py:283-290 | lists exactly the catalog names that neither start with 'PLMN' nor are DEVICE or FAP_SERVICE |
| CaviumDataModel.ObjectRows | lte/gateway/python/magma/enodebd/devices/cavium.py:175-233 | among the dictionary literal's rows, exactly DEVICE, FAP_SERVICE and PLMN are objects |
| CaviumDataModel.ListedNamesAreScalars | lte/gateway/python/magma/enodebd/devices/cavium.py:283-290 | a catalog name is listed exactly when it is a literal, non-object row: the filter drops precisely the objects and the PLMN family |
| CaviumDataModel.GetNumberedParamNames | lte/gateway/python/magma/enodebd/devices/cavium.py:292-304 | keys are exactly the PLMN objects 1..6, each mapped to its four children in append order |
| CaviumDataModel.TransformsOnCatalogRows | lte/gateway/python/magma/enodebd/devices/cavium.py:249-256 | the eNB-side transforms apply to string rows with a true second flag (the bandwidths); the magma-side ones apply to such int rows (GPS latitude and longitude) |
| CaviumDataModel.TransformForEnb | lte/gateway/python/magma/enodebd/devices/cavium.py:249-252 | a value passes unchanged exactly when its name has no eNB-side transform |
| CaviumStates.StatusErrorNamesStatus | lte/gateway/python/magma/enodebd/devices/cavium.py:157-159 | the non-zero-Status error text starts with its fixed prefix and reads back as the Status |
| CaviumStates.DisableAdminEnableState.ReadMsg | lte/gateway/python/magma/enodebd/devices/cavium.py:104-107 | accepts exactly the placeholder input and names no transition; rejects every other message |
| CaviumStates.DisableAdminEnableState.GetMsg | lte/gateway/python/magma/enodebd/devices/cavium.py:109-131 | one ParameterValueStruct, array type `cwmp:ParameterValueStruct[1]`, that sets the catalog's ADMIN_STATE path to the `xsd:string` "False"; the next state is `when_done` |
| CaviumStates.WaitDisableAdminEnableState.ReadMsg | lte/gateway/python/magma/enodebd/devices/cavium.py:144-160 | a Fault fails with an error naming its FaultString; other non-responses are rejected; a response is accepted, moving to `when_done`, exactly when its Status is 0; otherwise it fails naming the Status |
| Cavium.SpecialNamesAreKeys | lte/gateway/python/magma/enodebd/devices/cavium.py:81-91 | the disconnected, unexpected-inform and unexpected-fault names, and 'reboot', are keys; disconnected is a DisconnectedState and unexpected_fault an ErrorState |
| Cavium.DanglingNamesAreSuccessors | lte/gateway/python/magma/enodebd/devices/cavium.py:46-61 | the four names get_obj_params, wait_get_parameters, wait_reboot_delay and wait_empty are named as successors |
| Cavium.OtherSuccessorsAreKeys | lte/gateway/python/magma/enodebd/devices/cavium.py:44-62 | every other successor name is a key |
| Cavium.DanglingSuccessors | lte/gateway/python/magma/enodebd/devices/cavium.py:44-62 | a successor name is missing from the table exactly when it is one of those four |
| Cavium.WaitGetParamsNotSuccessor | lte/gateway/python/magma/enodebd/devices/cavium.py:44-62 | no entry of the table names 'wait_get_params' as a successor |
| Cavium.DisableAdminOnlyAfterWaitGetParams | lte/gateway/python/magma/enodebd/devices/cavium.py:44-62 | apart from 'wait_get_params', no entry names 'disable_admin' as a successor |
| Cavium.WaitDisableAdminOnlyAfterDisableAdmin | lte/gateway/python/magma/enodebd/devices/cavium.py:44-62 | apart from 'disable_admin', no entry names 'wait_disable_admin' as a successor |
| Cavium.AdminDisableChainUnreachable | lte/gateway/python/magma/enodebd/devices/cavium.py:44-62 | no state outside the admin-disable chain names a state of the chain, and 'disconnected' lies outside it, so the chain is unreachable from 'disconnected' |
| Cavium.DisconnectedStateUnique | lte/gateway/python/magma/enodebd/devices/cavium.py:44-62 | the only entry whose state is a DisconnectedState is 'disconnected' |
| Cavium.AdminDisablePairWired | lte/gateway/python/magma/enodebd/devices/cavium.py:48-50 | wait_get_params leads to disable_admin, whose request moves to wait_disable_admin; a zero Status there moves to delete_objs; both targets are keys |
| Cavium.CaviumHandler.constructor | lte/gateway/python/magma/enodebd/devices/cavium.py:42-63 | a new handler holds the Cavium table and starts disconnected |
| Cavium.CaviumHandler.InitStateMap | lte/gateway/python/magma/enodebd/devices/cavium.py:42-63 | installs the table and leaves the current state alone |
| Cavium.CaviumHandler.Transition | lte/gateway/python/magma/enodebd/devices/cavium.py:36-37 | moves to a name exactly when the table defines it; otherwise reports failure and keeps the state; the table never changes |
| Cavium.CaviumHandler.RebootAsap | lte/gateway/python/magma/enodebd/devices/cavium.py:36-37 | from any state, the handler is in 'reboot' afterwards |
| Cavium.CaviumHandler.IsEnodebConnected | lte/gateway/python/magma/enodebd/devices/cavium.py:39-40 | the `isinstance(state, DisconnectedState)` test is false exactly when the current name is not 'disconnected' |
| ConfigPostprocessor.EnodebConfiguration.SetParameter | lte/gateway/python/magma/enodebd/devices/cavium.py:308-310 | sets one name's value and leaves every other name as it was |
| ConfigPostprocessor.Postprocessed | lte/gateway/python/magma/enodebd/devices/cavium.py:307-310 | CELL_BARRED and ADMIN_STATE are True afterwards; every other name keeps its value and no other name is added |
| ConfigPostprocessor.PostprocessFixesForced | lte/gateway/python/magma/enodebd/devices/cavium.py:307-310 | a configuration already holding both forced values is left unchanged |
| ConfigPostprocessor.PostprocessIdempotent | lte/gateway/python/magma/enodebd/devices/cavium.py:307-310 | postprocessing twice equals postprocessing once |
| ConfigPostprocessor.Postprocess | lte/gateway/python/magma/enodebd/devices/cavium.py:307-310 | the desired configuration is changed in place to its postprocessed form |
| Credit.Add64 | lte/gateway/c/session_manager/SessionCredit.h:154 | `uint64_t` addition: the exact sum when it fits; otherwise the sum less 2^64, below both operands |
| Credit.Bucket.Index | lte/gateway/c/session_manager/SessionCredit.h:26-37 | every enumerator's value is below MAX_VALUES = 9 |
| Credit.BucketAt | lte/gateway/c/session_manager/SessionCredit.h:26-37 | each index below 9 is the value of an enumerator |
| Credit.BucketIndexBijective | lte/gateway/c/session_manager/SessionCredit.h:26-37 | enumerators and indices 0..8 correspond one to one |
| Credit.AddUsedCreditEffect | lte/gateway/c/session_manager/SessionCredit.h:75-79 | USED_TX and USED_RX grow by the used volumes; every other bucket, and whether the credit is reporting, stay |
| Credit.ResetReportingCreditEffect | lte/gateway/c/session_manager/SessionCredit.h:81-86 | both REPORTING_* buckets become 0, so the credit is no longer reporting; nothing else changes |
| Credit.ReceiveCreditEffect | lte/gateway/c/session_manager/SessionCredit.h:94-103 | ALLOWED_TOTAL/TX/RX grow by the granted volumes; REPORTED_* grows by the old REPORTING_*; REPORTING_* becomes 0; USED_* stay |
| Credit.ReceiveCreditMovesReportingVolume | lte/gateway/c/session_manager/SessionCredit.h:94-103 | in each direction the REPORTED_* + REPORTING_* total is conserved (modulo 2^64), and the credit is no longer reporting |
| Credit.ResetAfterReceiveCreditChangesNothing | lte/gateway/c/session_manager/SessionCredit.h:81-103 | after credit is received, a reset of the reporting credit changes nothing |
| Credit.SessionCredit.constructor | lte/gateway/c/session_manager/SessionCredit.h:71 | nine empty buckets, service enabled, no reauthorization needed |
| Credit.SessionCredit.WithServiceState | lte/gateway/c/session_manager/SessionCredit.h:73 | as the default constructor, but starting in the given service state |
| Credit.SessionCredit.GetCredit | lte/gateway/c/session_manager/SessionCredit.h:130-133 | the credit in the named bucket; being a function, it changes nothing |
| Credit.SessionCredit.IsReporting | lte/gateway/c/session_manager/SessionCredit.h:125-128 | true exactly when REPORTING_TX or REPORTING_RX is above 0 |
| Credit.SessionCredit.AddUsedCredit | lte/gateway/c/session_manager/SessionCredit.h:75-79 | the array ends up as `AfterAddUsedCredit` of the old buckets; the scalar fields are left unspecified |
| Credit.SessionCredit.ResetReportingCredit | lte/gateway/c/session_manager/SessionCredit.h:81-86 | the array ends up as `AfterResetReportingCredit` of the old buckets, and the credit is no longer reporting; the scalar fields are left unspecified |
| Credit.SessionCredit.ReceiveCredit | lte/gateway/c/session_manager/SessionCredit.h:94-103 | the array ends up as `AfterReceiveCredit` of the old buckets and the granted volumes, and the credit is no longer reporting; the scalar fields are left unspecified |
| Credit.SessionCredit.Reauth | lte/gateway/c/session_manager/SessionCredit.h:135-139 | the reauth state becomes REAUTH_REQUIRED; the other flags and the buckets stay, as the model assumes |
| LteBands.Lookup | lte/cloud/go/services/cellular/utils/lte_bands_test.go:28-41 | finds a band exactly when some table row's range holds the EARFCN; the band found is the first such row |
| LteBands.GetBand | lte/cloud/go/services/cellular/utils/lte_bands_test.go:28-41 | a band or the "no matching band" error, never both; a band is returned exactly when one of the table's ranges holds the EARFCN, and it is that band |
| LteBands.BandsDisjoint | lte/cloud/go/services/cellular/utils/lte_bands_test.go:18-26 | the table's downlink ranges ascend and do not overlap |
| LteBands.GetBandUnique | lte/cloud/go/services/cellular/utils/lte_bands_test.go:28-32 | any band of the table that holds the EARFCN is the band returned |
| LteBands.GetBandTestPoints | lte/cloud/go/services/cellular/utils/lte_bands_test.go:17-33 | 0 and 599 give band 1; 600 and 749 give band 2; 38650 gives band 40; 43590 and 45589 give band 43 |
| LteBands.GetBandNegative | lte/cloud/go/services/cellular/utils/lte_bands_test.go:36-40 | every negative EARFCN is an error |
| LteBands.GetBandErrorPoints | lte/cloud/go/services/cellular/utils/lte_bands_test.go:35-41 | -1, 45590 and 45591 are errors |

## Left out

- The generic state machine `BasicEnodebAcsStateMachine` and the generic state classes are not part of this model. Each state is kept as its class name and its successor arguments.
- `transition`'s body is not part of this model. A name missing from the table is treated as a configuration error that leaves the state unchanged.
- Message handling through `read_msg`/`get_msg` for the generic states is not part of this model.
- The timer behind `when_timeout` is left out.
- The handler properties `device_name`, `data_model_class`, `config_postprocessor` and `state_map` are left out. They return other classes or the table itself.
- The `state_description` methods are left out: they only return display text.
- The `ParameterName` strings are not part of this model; the datatype `ParamName` stands for them.
  - The test "starts with 'PLMN'" is taken to hold for PLMN and the numbered PLMN names only.
  - The comparison with DEVICE and FAP_SERVICE is done by name.
- TrParam's second and fourth positional fields have no names in `cavium.py`, and the file does not say what they mean. They are called `secondFlag` and `fourthFlag` here, and the model gives them no meaning beyond the values the rows set.
- CaviumDataModel.GetParameterNames: states which names are listed, not that they come in the dictionary's insertion order.
- CaviumDataModel.FilterListed: states which names are kept, not that their order is preserved.
- The transform functions `transform_for_enb.bandwidth` and `transform_for_magma.gps_tr181` are not part of this model. Only which names have one is kept.
- CaviumDataModel.TransformForEnb: gives no value for a name that has a transform.
- Applying the magma-side transforms is left out.
- The logging in `CaviumWaitDisableAdminEnableState.read_msg` is left out, including the loop over `SetParameterValuesFault` entries.
- The SOAP message classes are reduced to the fields the two states read or write.
- Messages are a closed datatype, so a subclass of `Fault` cannot be told apart from `Fault`. The source checks a Fault by exact type and other messages with `isinstance`.
- SessionCredit.h is only a header.
- Credit.SessionCredit.constructor: the constructor bodies are not part of this model. Empty buckets, REAUTH_NOT_NEEDED and cleared flags are assumed.
- Credit.SessionCredit.WithServiceState: as above, with the given service state assumed to be stored.
- Credit.SessionCredit.ReceiveCredit: states the documented bucket movement only. The effect of `validity_time` and `is_final` on `expiry_time_`, `is_final_` and the reauth and reporting flags is not documented in the header. The method may change the object's scalar fields, and its contract says nothing about their new values. `expiry_time_` is not a field of the model.
- Credit.SessionCredit.AddUsedCredit: states the documented USED_TX and USED_RX increments only. The method may change the object's scalar fields, such as the service state or the final-unit flag, and its contract says nothing about their new values.
- Credit.SessionCredit.Reauth: the header documents only the REAUTH_REQUIRED mark. That the call leaves the reporting flag, the final-unit flag, the service state and the buckets as they were is an assumption of the model.
- Credit.SessionCredit.IsReporting: modelled from its doc-comment, as a function of the REPORTING_* buckets. The private `reporting_` flag is a field of the model that the constructors clear, but the model ties it to nothing, because no method body that updates it is visible.
- Credit.SessionCredit.ResetReportingCredit: states the documented bucket reset only. The method may change the object's scalar fields, such as the reporting flag, and its contract says nothing about their new values.
- `mark_failure`, `get_update_type`, `get_usage_for_reporting` and `get_action` are left out. So are the private helpers and `expiry_time_`, which is clock time. Their bodies are not part of this model.
- `USAGE_REPORTING_LIMIT` is left out. Its value and the rule that splits large usage across updates are in the implementation file, which is not part of this model.
- The implementation of `GetBand` is not part of this model.
  - The table holds only the four bands the test pins, with their downlink ranges from 3GPP TS 36.101.
  - Other bands, and band fields other than ID and downlink range (duplex mode, uplink range), are left out.
  - The test requires 45590 to fail. So band 44 of TS 36.101, whose downlink range starts at 45590, is not in the table.
- The bootstrap manager tests and the GTP tunnel OpenFlow forwarding functions are outside the modelled core. They are scheduling, cryptography and calls into an external controller.
