/**
 * The Cavium device's parameter catalog (`CaviumTrDataModel`): a read-only
 * map from abstract parameter names to descriptors of the TR-181/TR-196
 * `Device.` tree, the six numbered PLMN list objects a loop adds to it, and
 * the accessors derived from it.
 */
module CaviumDataModel {
  import opened Optional
  import opened Tr069Text

  /** The parameter names the class body's dictionary literal uses. */
  datatype BaseName =
    | Device | FapService
    | GpsStatus | GpsLat | GpsLong | SwVersion
    | DuplexModeCapability | BandCapability
    | EarfcnDl | EarfcnUl | Band | Pci | DlBandwidth | UlBandwidth
    | AdminState | OpState | RfTxStatus
    | CellReserved | CellBarred
    | MmeIp | MmePort | NumPlmns | Plmn | Tac | IpSecEnable | PeriodicInformInterval
    | PerfMgmtEnable | PerfMgmtUploadInterval | PerfMgmtUploadUrl

  /**
   * The numbered name templates: `PLMN_N`, the PLMN list object, and its
   * four children `PLMN_N_CELL_RESERVED`, `PLMN_N_ENABLE`, `PLMN_N_PRIMARY`
   * and `PLMN_N_PLMNID`.
   */
  datatype PlmnField = PlmnN | PlmnNCellReserved | PlmnNEnable | PlmnNPrimary | PlmnNPlmnId

  /** A parameter name: a plain one, or a numbered template filled in with an index (`PLMN_N_ENABLE % i`). */
  datatype ParamName = Base(base: BaseName) | Numbered(field: PlmnField, i: int)

  /** Whether the name's text begins with 'PLMN': the PLMN list and the whole numbered family. */
  predicate StartsWithPlmn(name: ParamName) {
    name == Base(Plmn) || name.Numbered?
  }

  datatype TrParameterType = String | Int | UnsignedInt | Boolean | Object

  /**
   * One catalog row (`TrParam`): the device path, the second positional flag
   * (false on six rows, AdminState among them; its meaning is not stated), the wire type,
   * and the fourth positional flag.
   */
  datatype TrParam = TrParam(path: string, secondFlag: bool, paramType: TrParameterType, fourthFlag: bool)

  const DevicePath: string := "Device."
  /** The FAPService object's path below `Device.`. */
  const FapServiceSubPath: string := "Services.FAPService.1."
  const FapServicePath: string := DevicePath + FapServiceSubPath
  /** The PLMN list object's path below `Device.`. */
  const PlmnListSubPath: string := FapServiceSubPath + "CellConfig.LTE.EPC.PLMNList."
  const NumPlmnsInConfig: int := 6

  /**
   * The part of a literal row's path after `Device.`: the dictionary literal
   * writes every path as `DEVICE_PATH + …` or `FAPSERVICE_PATH + …`.
   */
  function LiteralSubPath(base: BaseName): string {
    match base
    case Device => ""
    case FapService => FapServiceSubPath
    case GpsStatus => "FAP.GPS.ContinuousGPSStatus.GotFix"
    case GpsLat => "FAP.GPS.LockedLatitude"
    case GpsLong => "FAP.GPS.LockedLongitude"
    case SwVersion => "DeviceInfo.SoftwareVersion"
    case DuplexModeCapability => FapServiceSubPath + "Capabilities.LTE.DuplexMode"
    case BandCapability => FapServiceSubPath + "Capabilities.LTE.BandsSupported"
    case EarfcnDl => FapServiceSubPath + "CellConfig.LTE.RAN.RF.EARFCNDL"
    case EarfcnUl => FapServiceSubPath + "CellConfig.LTE.RAN.RF.EARFCNUL"
    case Band => FapServiceSubPath + "CellConfig.LTE.RAN.RF.FreqBandIndicator"
    case Pci => FapServiceSubPath + "CellConfig.LTE.RAN.RF.PhyCellID"
    case DlBandwidth => FapServiceSubPath + "CellConfig.LTE.RAN.RF.DLBandwidth"
    case UlBandwidth => FapServiceSubPath + "CellConfig.LTE.RAN.RF.ULBandwidth"
    case AdminState => FapServiceSubPath + "FAPControl.LTE.AdminState"
    case OpState => FapServiceSubPath + "FAPControl.LTE.OpState"
    case RfTxStatus => FapServiceSubPath + "FAPControl.LTE.RFTxStatus"
    case CellReserved => FapServiceSubPath + "CellConfig.LTE.RAN.CellRestriction.CellReservedForOperatorUse"
    case CellBarred => FapServiceSubPath + "CellConfig.LTE.RAN.CellRestriction.CellBarred"
    case MmeIp => FapServiceSubPath + "FAPControl.LTE.Gateway.S1SigLinkServerList"
    case MmePort => FapServiceSubPath + "FAPControl.LTE.Gateway.S1SigLinkPort"
    case NumPlmns => FapServiceSubPath + "CellConfig.LTE.EPC.PLMNListNumberOfEntries"
    case Plmn => FapServiceSubPath + "CellConfig.LTE.EPC.PLMNList."
    case Tac => FapServiceSubPath + "CellConfig.LTE.EPC.TAC"
    case IpSecEnable => "IPsec.Enable"
    case PeriodicInformInterval => "ManagementServer.PeriodicInformInterval"
    case PerfMgmtEnable => FapServiceSubPath + "PerfMgmt.Config.1.Enable"
    case PerfMgmtUploadInterval => FapServiceSubPath + "PerfMgmt.Config.1.PeriodicUploadInterval"
    case PerfMgmtUploadUrl => FapServiceSubPath + "PerfMgmt.Config.1.URL"
  }

  /** The sub-path of the i-th PLMN list object: the list's sub-path, i in decimal, and a dot. */
  function PlmnObjectSubPath(i: int): string {
    PlmnListSubPath + FormatInt(i) + "."
  }

  /** What a numbered row's path adds to its PLMN object's path; empty for the object itself. */
  function FieldLeaf(field: PlmnField): string {
    match field
    case PlmnN => ""
    case PlmnNCellReserved => "CellReservedForOperatorUse"
    case PlmnNEnable => "Enable"
    case PlmnNPrimary => "IsPrimary"
    case PlmnNPlmnId => "PLMNID"
  }

  /** The part of any row's path after `Device.`. */
  function SubPath(name: ParamName): string {
    match name
    case Base(base) => LiteralSubPath(base)
    case Numbered(field, i) => PlmnObjectSubPath(i) + FieldLeaf(field)
  }

  /** The second field of each row: false exactly on the six rows that give it False. */
  function SecondFlag(name: ParamName): bool {
    !(name.Base? && name.base in {AdminState, IpSecEnable, PeriodicInformInterval, PerfMgmtEnable, PerfMgmtUploadInterval, PerfMgmtUploadUrl})
  }

  /** The wire type of each row. */
  function TypeOf(name: ParamName): TrParameterType {
    match name
    case Base(base) => (
      match base
      case Device | FapService | Plmn => Object
      case SwVersion | DuplexModeCapability | Pci | DlBandwidth | UlBandwidth | MmeIp | PerfMgmtUploadUrl => String
      case GpsLat | GpsLong => Int
      case BandCapability | EarfcnDl | EarfcnUl | Band | MmePort | NumPlmns | Tac | PeriodicInformInterval | PerfMgmtUploadInterval => UnsignedInt
      case GpsStatus | AdminState | OpState | RfTxStatus | CellReserved | CellBarred | IpSecEnable | PerfMgmtEnable => Boolean
    )
    case Numbered(PlmnN, _) => Object
    case Numbered(PlmnNPlmnId, _) => String
    case Numbered(_, _) => Boolean
  }

  /**
   * The row the class body writes for a name, by the dictionary literal or
   * by the PLMN loop; every row has false as its fourth field.
   */
  function Row(name: ParamName): TrParam {
    TrParam(DevicePath + SubPath(name), SecondFlag(name), TypeOf(name), false)
  }

  /** The rows `Row` gives a set of names. */
  function RowsOf(names: set<ParamName>): map<ParamName, TrParam> {
    map name | name in names :: Row(name)
  }

  /** The names of the dictionary literal. */
  function BaseNames(): set<ParamName> {
    set base: BaseName :: Base(base)
  }

  /** The numbered names of indices 1..n: the names the first n iterations of the PLMN loop insert. */
  function NumberedNames(n: int): set<ParamName>
    decreases n
  {
    if n < 1 then {}
    else
      NumberedNames(n - 1)
      + {Numbered(PlmnN, n), Numbered(PlmnNCellReserved, n), Numbered(PlmnNEnable, n),
         Numbered(PlmnNPrimary, n), Numbered(PlmnNPlmnId, n)}
  }

  lemma {:induction false} NumberedNamesSpec(n: int, name: ParamName)
    ensures name in NumberedNames(n) <==> name.Numbered? && 1 <= name.i <= n
    decreases n
  {
    if n >= 1 {
      NumberedNamesSpec(n - 1, name);
      if name.Numbered? && name.i == n {
        match name.field
        case PlmnN =>
        case PlmnNCellReserved =>
        case PlmnNEnable =>
        case PlmnNPrimary =>
        case PlmnNPlmnId =>
      }
    }
  }

  /** The names the finished catalog holds: every plain name and the numbered names of indices 1..6. */
  predicate InCatalog(name: ParamName) {
    name.Base? || 1 <= name.i <= NumPlmnsInConfig
  }

  /** The numbered names of indices 1..6. */
  function PlmnNames(): set<ParamName> {
    set field: PlmnField, i | 1 <= i <= NumPlmnsInConfig :: Numbered(field, i)
  }

  /** The keys of `PARAMETERS` once the class body has run. */
  function CatalogNameSet(): set<ParamName> {
    BaseNames() + PlmnNames()
  }

  /**
   * `PARAMETERS` once the class body has run: each key carries the row the
   * dictionary literal or the PLMN loop writes for it.
   */
  function Parameters(): map<ParamName, TrParam> {
    RowsOf(CatalogNameSet())
  }

  /** The catalog holds exactly the names of `InCatalog`. */
  lemma CatalogNames(name: ParamName)
    ensures name in Parameters() <==> InCatalog(name)
  {
    if InCatalog(name) && name.Numbered? {
      assert name == Numbered(name.field, name.i);
    }
  }

  /** Every name of the catalog carries the row the class body wrote for it. */
  lemma CatalogRow(name: ParamName)
    requires InCatalog(name)
    ensures name in Parameters() && Parameters()[name] == Row(name)
  {
    CatalogNames(name);
  }

  /** The rows one iteration of the PLMN loop writes are the rows `Row` gives the five names of its index. */
  lemma PlmnLoopRows(i: int)
    ensures Row(Numbered(PlmnN, i)) == TrParam(DevicePath + PlmnObjectSubPath(i), true, Object, false)
    ensures Row(Numbered(PlmnNCellReserved, i))
         == TrParam(DevicePath + (PlmnObjectSubPath(i) + "CellReservedForOperatorUse"), true, Boolean, false)
    ensures Row(Numbered(PlmnNEnable, i)) == TrParam(DevicePath + (PlmnObjectSubPath(i) + "Enable"), true, Boolean, false)
    ensures Row(Numbered(PlmnNPrimary, i)) == TrParam(DevicePath + (PlmnObjectSubPath(i) + "IsPrimary"), true, Boolean, false)
    ensures Row(Numbered(PlmnNPlmnId, i)) == TrParam(DevicePath + (PlmnObjectSubPath(i) + "PLMNID"), true, String, false)
  {
    assert PlmnObjectSubPath(i) + FieldLeaf(PlmnN) == PlmnObjectSubPath(i);
  }

  /** Writing the row of one more name extends the rows of a set by that name. */
  lemma AddRow(names: set<ParamName>, name: ParamName)
    ensures RowsOf(names)[name := Row(name)] == RowsOf(names + {name})
  {
  }

  /**
   * Builds `PARAMETERS` the way the class body does: the dictionary literal,
   * then one loop iteration per PLMN index writing the object and its four
   * children.
   */
  method BuildParameters() returns (parameters: map<ParamName, TrParam>)
    ensures parameters == Parameters()
  {
    parameters := RowsOf(BaseNames());
    for i := 1 to NumPlmnsInConfig + 1
      invariant parameters == RowsOf(BaseNames() + NumberedNames(i - 1))
    {
      PlmnLoopRows(i);
      ghost var names := BaseNames() + NumberedNames(i - 1);
      parameters := parameters[Numbered(PlmnN, i) := TrParam(DevicePath + PlmnObjectSubPath(i), true, Object, false)];
      AddRow(names, Numbered(PlmnN, i));
      names := names + {Numbered(PlmnN, i)};
      parameters := parameters[Numbered(PlmnNCellReserved, i) :=
        TrParam(DevicePath + (PlmnObjectSubPath(i) + "CellReservedForOperatorUse"), true, Boolean, false)];
      AddRow(names, Numbered(PlmnNCellReserved, i));
      names := names + {Numbered(PlmnNCellReserved, i)};
      parameters := parameters[Numbered(PlmnNEnable, i) :=
        TrParam(DevicePath + (PlmnObjectSubPath(i) + "Enable"), true, Boolean, false)];
      AddRow(names, Numbered(PlmnNEnable, i));
      names := names + {Numbered(PlmnNEnable, i)};
      parameters := parameters[Numbered(PlmnNPrimary, i) :=
        TrParam(DevicePath + (PlmnObjectSubPath(i) + "IsPrimary"), true, Boolean, false)];
      AddRow(names, Numbered(PlmnNPrimary, i));
      names := names + {Numbered(PlmnNPrimary, i)};
      parameters := parameters[Numbered(PlmnNPlmnId, i) :=
        TrParam(DevicePath + (PlmnObjectSubPath(i) + "PLMNID"), true, String, false)];
      AddRow(names, Numbered(PlmnNPlmnId, i));
      names := names + {Numbered(PlmnNPlmnId, i)};
      assert names == BaseNames() + NumberedNames(i);
    }
    forall name
      ensures name in NumberedNames(NumPlmnsInConfig) <==> name in PlmnNames()
    {
      NumberedNamesSpec(NumPlmnsInConfig, name);
      CatalogNames(name);
    }
    assert NumberedNames(NumPlmnsInConfig) == PlmnNames();
  }

  /** Associativity of concatenation, in the direction the path proofs need. */
  lemma ConcatAssoc(a: string, b: string, c: string)
    ensures a + (b + c) == (a + b) + c
  {
  }

  /** A path extended by a non-empty leaf lies strictly beneath it. */
  lemma StrictlyBeneath(prefix: string, parent: string, leaf: string)
    requires leaf != []
    ensures prefix + parent < prefix + (parent + leaf)
  {
    ConcatAssoc(prefix, parent, leaf);
    assert (prefix + parent + leaf)[..|prefix + parent|] == prefix + parent;
  }

  /** A catalog path starts with `Device.`. */
  lemma PathUnderDevice(name: ParamName)
    requires name in Parameters()
    ensures DevicePath <= Parameters()[name].path
  {
    CatalogNames(name);
    CatalogRow(name);
    assert (DevicePath + SubPath(name))[..|DevicePath|] == DevicePath;
  }

  /** Every catalog path starts with `Device.`. */
  lemma AllPathsUnderDevice()
    ensures forall name | name in Parameters() :: DevicePath <= Parameters()[name].path
  {
    forall name | name in Parameters()
      ensures DevicePath <= Parameters()[name].path
    {
      PathUnderDevice(name);
    }
  }

  /**
   * A proof device, not part of the handler: reads a name back from the part
   * of its path after `Device.`, so that `SubPath` has a left inverse on the
   * catalog and two catalog names can never share a path (`PathsDistinct`).
   * It tells the catalog's sub-paths apart by their length and, where two
   * share a length, by one character near the end; a digit right after the
   * PLMN list's 50-character sub-path marks a numbered name. It says nothing
   * about strings that are not catalog sub-paths.
   */
  function NameOfSubPath(subPath: string): Option<ParamName> {
    match |subPath|
    case 0 => Some(Base(Device))
    case 12 => Some(Base(IpSecEnable))
    case 22 => if subPath[21] == '.' then Some(Base(FapService)) else Some(Base(GpsLat))
    case 23 => Some(Base(GpsLong))
    case 26 => Some(Base(SwVersion))
    case 34 => Some(Base(GpsStatus))
    case 39 => Some(Base(PeriodicInformInterval))
    case 43 => Some(Base(PerfMgmtUploadUrl))
    case 44 => if subPath[43] == 'e' then Some(Base(OpState)) else Some(Base(Tac))
    case 46 => Some(Base(PerfMgmtEnable))
    case 47 => if subPath[46] == 'e' then Some(Base(AdminState)) else Some(Base(RfTxStatus))
    case 49 => Some(Base(DuplexModeCapability))
    case 50 => Some(Base(Plmn))
    case 52 =>
      if IsDigit(subPath[50]) then Some(Numbered(PlmnN, DigitValue(subPath[50])))
      else if subPath[50] == 'D' then Some(Base(EarfcnDl))
      else Some(Base(EarfcnUl))
    case 53 => if subPath[52] == 'd' then Some(Base(BandCapability)) else Some(Base(Pci))
    case 55 => if subPath[44] == 'D' then Some(Base(DlBandwidth)) else Some(Base(UlBandwidth))
    case 58 =>
      if !IsDigit(subPath[50]) then Some(Base(MmePort))
      else if subPath[57] == 'e' then Some(Numbered(PlmnNEnable, DigitValue(subPath[50])))
      else Some(Numbered(PlmnNPlmnId, DigitValue(subPath[50])))
    case 61 =>
      if IsDigit(subPath[50]) then Some(Numbered(PlmnNPrimary, DigitValue(subPath[50])))
      else Some(Base(Band))
    case 62 => Some(Base(PerfMgmtUploadInterval))
    case 64 => if subPath[63] == 't' then Some(Base(MmeIp)) else Some(Base(NumPlmns))
    case 67 => Some(Base(CellBarred))
    case 78 => Some(Numbered(PlmnNCellReserved, DigitValue(subPath[50])))
    case 83 => Some(Base(CellReserved))
    case _ => None
  }

  /** A one-digit index is formatted as its single digit. */
  lemma FormatOneDigit(i: int)
    requires 0 <= i < 10
    ensures FormatInt(i) == [DigitChar(i)]
  {
  }

  /** A numbered sub-path, for a one-digit index, decodes to its own name. */
  lemma NumberedSubPathDecodes(field: PlmnField, i: int)
    requires 0 <= i < 10
    ensures NameOfSubPath(SubPath(Numbered(field, i))) == Some(Numbered(field, i))
  {
    FormatOneDigit(i);
    assert |PlmnListSubPath| == 50;
    assert |PlmnObjectSubPath(i)| == 52 && PlmnObjectSubPath(i)[50] == DigitChar(i);
    var subPath := SubPath(Numbered(field, i));
    assert subPath == PlmnObjectSubPath(i) + FieldLeaf(field);
    assert subPath[50] == DigitChar(i);
    match field
    case PlmnN =>
    case PlmnNCellReserved =>
    case PlmnNEnable =>
      assert subPath[57] == 'e';
    case PlmnNPrimary =>
    case PlmnNPlmnId =>
      assert subPath[57] == 'D';
  }

  // Decoding the literal sub-paths, grouped by the part of the data model they
  // belong to; each lemma covers at most three rows.
  lemma DeviceObjectSubPathsDecode(base: BaseName)
    requires base in {Device, FapService, GpsStatus}
    ensures NameOfSubPath(LiteralSubPath(base)) == Some(Base(base))
  {
    match base
    case Device =>
      assert NameOfSubPath(LiteralSubPath(Device)) == Some(Base(Device));
    case FapService =>
      assert NameOfSubPath(LiteralSubPath(FapService)) == Some(Base(FapService));
    case GpsStatus =>
      assert NameOfSubPath(LiteralSubPath(GpsStatus)) == Some(Base(GpsStatus));
  }

  lemma GpsAndSoftwareSubPathsDecode(base: BaseName)
    requires base in {GpsLat, GpsLong, SwVersion}
    ensures NameOfSubPath(LiteralSubPath(base)) == Some(Base(base))
  {
    match base
    case GpsLat =>
      assert NameOfSubPath(LiteralSubPath(GpsLat)) == Some(Base(GpsLat));
    case GpsLong =>
      assert NameOfSubPath(LiteralSubPath(GpsLong)) == Some(Base(GpsLong));
    case SwVersion =>
      assert NameOfSubPath(LiteralSubPath(SwVersion)) == Some(Base(SwVersion));
  }

  lemma CapabilitySubPathsDecode(base: BaseName)
    requires base in {DuplexModeCapability, BandCapability, EarfcnDl}
    ensures NameOfSubPath(LiteralSubPath(base)) == Some(Base(base))
  {
    match base
    case DuplexModeCapability =>
      assert NameOfSubPath(LiteralSubPath(DuplexModeCapability)) == Some(Base(DuplexModeCapability));
    case BandCapability =>
      assert NameOfSubPath(LiteralSubPath(BandCapability)) == Some(Base(BandCapability));
    case EarfcnDl =>
      assert NameOfSubPath(LiteralSubPath(EarfcnDl)) == Some(Base(EarfcnDl));
  }

  lemma RadioSubPathsDecode(base: BaseName)
    requires base in {EarfcnUl, Band, Pci}
    ensures NameOfSubPath(LiteralSubPath(base)) == Some(Base(base))
  {
    match base
    case EarfcnUl =>
      assert NameOfSubPath(LiteralSubPath(EarfcnUl)) == Some(Base(EarfcnUl));
    case Band =>
      assert NameOfSubPath(LiteralSubPath(Band)) == Some(Base(Band));
    case Pci =>
      assert NameOfSubPath(LiteralSubPath(Pci)) == Some(Base(Pci));
  }

  lemma BandwidthAndAdminSubPathsDecode(base: BaseName)
    requires base in {DlBandwidth, UlBandwidth, AdminState}
    ensures NameOfSubPath(LiteralSubPath(base)) == Some(Base(base))
  {
    match base
    case DlBandwidth =>
      assert NameOfSubPath(LiteralSubPath(DlBandwidth)) == Some(Base(DlBandwidth));
    case UlBandwidth =>
      assert NameOfSubPath(LiteralSubPath(UlBandwidth)) == Some(Base(UlBandwidth));
    case AdminState =>
      assert NameOfSubPath(LiteralSubPath(AdminState)) == Some(Base(AdminState));
  }

  lemma StatusSubPathsDecode(base: BaseName)
    requires base in {OpState, RfTxStatus, CellReserved}
    ensures NameOfSubPath(LiteralSubPath(base)) == Some(Base(base))
  {
    match base
    case OpState =>
      assert NameOfSubPath(LiteralSubPath(OpState)) == Some(Base(OpState));
    case RfTxStatus =>
      assert NameOfSubPath(LiteralSubPath(RfTxStatus)) == Some(Base(RfTxStatus));
    case CellReserved =>
      assert NameOfSubPath(LiteralSubPath(CellReserved)) == Some(Base(CellReserved));
  }

  lemma BarringAndMmeSubPathsDecode(base: BaseName)
    requires base in {CellBarred, MmeIp, MmePort}
    ensures NameOfSubPath(LiteralSubPath(base)) == Some(Base(base))
  {
    match base
    case CellBarred =>
      assert NameOfSubPath(LiteralSubPath(CellBarred)) == Some(Base(CellBarred));
    case MmeIp =>
      assert NameOfSubPath(LiteralSubPath(MmeIp)) == Some(Base(MmeIp));
    case MmePort =>
      assert NameOfSubPath(LiteralSubPath(MmePort)) == Some(Base(MmePort));
  }

  lemma PlmnListAndTacSubPathsDecode(base: BaseName)
    requires base in {NumPlmns, Plmn, Tac}
    ensures NameOfSubPath(LiteralSubPath(base)) == Some(Base(base))
  {
    match base
    case NumPlmns =>
      assert NameOfSubPath(LiteralSubPath(NumPlmns)) == Some(Base(NumPlmns));
    case Plmn =>
      assert NameOfSubPath(LiteralSubPath(Plmn)) == Some(Base(Plmn));
    case Tac =>
      assert NameOfSubPath(LiteralSubPath(Tac)) == Some(Base(Tac));
  }

  lemma ManagementSubPathsDecode(base: BaseName)
    requires base in {IpSecEnable, PeriodicInformInterval, PerfMgmtEnable}
    ensures NameOfSubPath(LiteralSubPath(base)) == Some(Base(base))
  {
    match base
    case IpSecEnable =>
      assert NameOfSubPath(LiteralSubPath(IpSecEnable)) == Some(Base(IpSecEnable));
    case PeriodicInformInterval =>
      assert NameOfSubPath(LiteralSubPath(PeriodicInformInterval)) == Some(Base(PeriodicInformInterval));
    case PerfMgmtEnable =>
      assert NameOfSubPath(LiteralSubPath(PerfMgmtEnable)) == Some(Base(PerfMgmtEnable));
  }

  lemma PerfMgmtUploadSubPathsDecode(base: BaseName)
    requires base in {PerfMgmtUploadInterval, PerfMgmtUploadUrl}
    ensures NameOfSubPath(LiteralSubPath(base)) == Some(Base(base))
  {
    match base
    case PerfMgmtUploadInterval =>
      assert NameOfSubPath(LiteralSubPath(PerfMgmtUploadInterval)) == Some(Base(PerfMgmtUploadInterval));
    case PerfMgmtUploadUrl =>
      assert NameOfSubPath(LiteralSubPath(PerfMgmtUploadUrl)) == Some(Base(PerfMgmtUploadUrl));
  }

  /** `NameOfSubPath` recovers every catalog name from its sub-path. */
  lemma SubPathDecodes(name: ParamName)
    requires InCatalog(name)
    ensures NameOfSubPath(SubPath(name)) == Some(name)
  {
    match name
    case Numbered(field, i) =>
      NumberedSubPathDecodes(field, i);
    case Base(base) =>
      match base
      case Device | FapService | GpsStatus => DeviceObjectSubPathsDecode(base);
      case GpsLat | GpsLong | SwVersion => GpsAndSoftwareSubPathsDecode(base);
      case DuplexModeCapability | BandCapability | EarfcnDl => CapabilitySubPathsDecode(base);
      case EarfcnUl | Band | Pci => RadioSubPathsDecode(base);
      case DlBandwidth | UlBandwidth | AdminState => BandwidthAndAdminSubPathsDecode(base);
      case OpState | RfTxStatus | CellReserved => StatusSubPathsDecode(base);
      case CellBarred | MmeIp | MmePort => BarringAndMmeSubPathsDecode(base);
      case NumPlmns | Plmn | Tac => PlmnListAndTacSubPathsDecode(base);
      case IpSecEnable | PeriodicInformInterval | PerfMgmtEnable => ManagementSubPathsDecode(base);
      case PerfMgmtUploadInterval | PerfMgmtUploadUrl => PerfMgmtUploadSubPathsDecode(base);
  }

  /** No two catalog names share a path. */
  lemma PathsDistinct(a: ParamName, b: ParamName)
    requires a in Parameters() && b in Parameters() && a != b
    ensures Parameters()[a].path != Parameters()[b].path
  {
    CatalogNames(a);
    CatalogNames(b);
    CatalogRow(a);
    CatalogRow(b);
    SubPathDecodes(a);
    SubPathDecodes(b);
    assert (DevicePath + SubPath(a))[|DevicePath|..] == SubPath(a);
    assert (DevicePath + SubPath(b))[|DevicePath|..] == SubPath(b);
  }

  /** All catalog paths are pairwise distinct. */
  lemma AllPathsDistinct()
    ensures forall a, b | a in Parameters() && b in Parameters() && a != b :: Parameters()[a].path != Parameters()[b].path
  {
    forall a, b | a in Parameters() && b in Parameters() && a != b
      ensures Parameters()[a].path != Parameters()[b].path
    {
      PathsDistinct(a, b);
    }
  }

  /** The four scalar children of the i-th PLMN object, in the order the class lists them. */
  function PlmnChildren(i: int): seq<ParamName> {
    [Numbered(PlmnNCellReserved, i), Numbered(PlmnNEnable, i), Numbered(PlmnNPrimary, i), Numbered(PlmnNPlmnId, i)]
  }

  /** A child row of the i-th PLMN object is a scalar whose path lies strictly beneath the object's. */
  lemma PlmnChildBeneath(i: int, child: ParamName)
    requires 1 <= i <= NumPlmnsInConfig && child in PlmnChildren(i)
    ensures Numbered(PlmnN, i) in Parameters() && child in Parameters()
    ensures Parameters()[child].paramType != Object
    ensures Parameters()[Numbered(PlmnN, i)].path < Parameters()[child].path
  {
    CatalogRow(Numbered(PlmnN, i));
    CatalogRow(child);
    StrictlyBeneath(DevicePath, PlmnObjectSubPath(i), FieldLeaf(child.field));
  }

  /**
   * For each index 1..6 the catalog holds the PLMN list object at
   * `…PLMNList.<i>.` and its four scalar children strictly beneath it.
   */
  lemma PlmnEntry(i: int)
    requires 1 <= i <= NumPlmnsInConfig
    ensures Numbered(PlmnN, i) in Parameters()
    ensures Parameters()[Numbered(PlmnN, i)]
         == TrParam(FapServicePath + "CellConfig.LTE.EPC.PLMNList." + FormatInt(i) + ".", true, Object, false)
    ensures forall child | child in PlmnChildren(i) ::
              child in Parameters() && Parameters()[child].paramType != Object
              && Parameters()[Numbered(PlmnN, i)].path < Parameters()[child].path
  {
    CatalogRow(Numbered(PlmnN, i));
    ConcatAssoc(DevicePath, FapServiceSubPath, "CellConfig.LTE.EPC.PLMNList.");
    ConcatAssoc(DevicePath, PlmnListSubPath, FormatInt(i));
    ConcatAssoc(DevicePath, PlmnListSubPath + FormatInt(i), ".");
    forall child | child in PlmnChildren(i)
      ensures child in Parameters() && Parameters()[child].paramType != Object
      ensures Parameters()[Numbered(PlmnN, i)].path < Parameters()[child].path
    {
      PlmnChildBeneath(i, child);
    }
  }

  /** The catalog holds the PLMN object of index i exactly when 1 <= i <= 6. */
  lemma PlmnObjects()
    ensures forall i :: Numbered(PlmnN, i) in Parameters() <==> 1 <= i <= NumPlmnsInConfig
  {
    forall i
      ensures Numbered(PlmnN, i) in Parameters() <==> 1 <= i <= NumPlmnsInConfig
    {
      CatalogNames(Numbered(PlmnN, i));
    }
  }

  /** `get_num_plmns`: the number of PLMN objects the catalog holds. */
  function GetNumPlmns(): (n: int)
    ensures forall i :: Numbered(PlmnN, i) in Parameters() <==> 1 <= i <= n
  {
    PlmnObjects();
    NumPlmnsInConfig
  }

  /** `get_parameter`: the row of a catalog name, and None for any other name. */
  function GetParameter(name: ParamName): (r: Option<TrParam>)
    ensures r.Some? <==> InCatalog(name)
    ensures r.Some? ==> r.value == Row(name)
  {
    CatalogNames(name);
    if name in Parameters() then
      CatalogRow(name);
      Some(Parameters()[name])
    else
      None
  }

  /** `get_load_parameters`: the single root object, whose path every catalog path extends. */
  function GetLoadParameters(): (r: seq<ParamName>)
    ensures r == [Base(Device)]
    ensures |r| == 1 && r[0] in Parameters() && Parameters()[r[0]].paramType == Object
    ensures forall name | name in Parameters() :: Parameters()[r[0]].path <= Parameters()[name].path
  {
    CatalogRow(Base(Device));
    assert Parameters()[Base(Device)].path == DevicePath;
    AllPathsUnderDevice();
    [Base(Device)]
  }

  /** DEVICE is the only catalog name whose path every catalog path extends: the root is unique. */
  lemma RootIsDevice(root: ParamName)
    requires root in Parameters()
    requires forall name | name in Parameters() :: Parameters()[root].path <= Parameters()[name].path
    ensures root == Base(Device)
  {
    CatalogRow(Base(Device));
    PathUnderDevice(root);
    assert Parameters()[root].path == DevicePath;
    if root != Base(Device) {
      PathsDistinct(root, Base(Device));
    }
  }

  /** The AdminState row: a boolean below the FAPService object whose second flag is False. */
  lemma AdminStateRow()
    ensures GetParameter(Base(AdminState))
         == Some(TrParam(FapServicePath + "FAPControl.LTE.AdminState", false, Boolean, false))
  {
    CatalogRow(Base(AdminState));
    ConcatAssoc(DevicePath, FapServiceSubPath, "FAPControl.LTE.AdminState");
  }

  /** The order in which the dictionary literal inserts its names. */
  function BaseKeyOrder(): seq<ParamName> {
    [
      Base(Device), Base(FapService), Base(GpsStatus), Base(GpsLat),
      Base(GpsLong), Base(SwVersion), Base(DuplexModeCapability), Base(BandCapability),
      Base(EarfcnDl), Base(EarfcnUl), Base(Band), Base(Pci),
      Base(DlBandwidth), Base(UlBandwidth), Base(AdminState), Base(OpState),
      Base(RfTxStatus), Base(CellReserved), Base(CellBarred), Base(MmeIp),
      Base(MmePort), Base(NumPlmns), Base(Plmn), Base(Tac),
      Base(IpSecEnable), Base(PeriodicInformInterval), Base(PerfMgmtEnable), Base(PerfMgmtUploadInterval),
      Base(PerfMgmtUploadUrl)
    ]
  }

  /** The order in which the first n iterations of the PLMN loop insert their names. */
  function PlmnKeyOrder(n: int): seq<ParamName>
    decreases n
  {
    if n < 1 then []
    else
      PlmnKeyOrder(n - 1)
      + [Numbered(PlmnN, n), Numbered(PlmnNCellReserved, n), Numbered(PlmnNEnable, n),
         Numbered(PlmnNPrimary, n), Numbered(PlmnNPlmnId, n)]
  }

  /** `PARAMETERS.keys()` in insertion order. */
  function KeyOrder(): seq<ParamName> {
    BaseKeyOrder() + PlmnKeyOrder(NumPlmnsInConfig)
  }

  lemma BaseKeyOrderPlain(name: ParamName)
    requires name in BaseKeyOrder()
    ensures name.Base?
  {
  }

  // The literal's order holds each plain name, split at AdminState into its
  // first fifteen and its last fourteen names.
  lemma BaseKeyOrderHoldsDeviceToAdminState(base: BaseName)
    requires base in {Device, FapService, GpsStatus, GpsLat, GpsLong, SwVersion, DuplexModeCapability, BandCapability, EarfcnDl, EarfcnUl, Band, Pci, DlBandwidth, UlBandwidth, AdminState}
    ensures Base(base) in BaseKeyOrder()
  {
    match base
    case Device => assert BaseKeyOrder()[0] == Base(base);
    case FapService => assert BaseKeyOrder()[1] == Base(base);
    case GpsStatus => assert BaseKeyOrder()[2] == Base(base);
    case GpsLat => assert BaseKeyOrder()[3] == Base(base);
    case GpsLong => assert BaseKeyOrder()[4] == Base(base);
    case SwVersion => assert BaseKeyOrder()[5] == Base(base);
    case DuplexModeCapability => assert BaseKeyOrder()[6] == Base(base);
    case BandCapability => assert BaseKeyOrder()[7] == Base(base);
    case EarfcnDl => assert BaseKeyOrder()[8] == Base(base);
    case EarfcnUl => assert BaseKeyOrder()[9] == Base(base);
    case Band => assert BaseKeyOrder()[10] == Base(base);
    case Pci => assert BaseKeyOrder()[11] == Base(base);
    case DlBandwidth => assert BaseKeyOrder()[12] == Base(base);
    case UlBandwidth => assert BaseKeyOrder()[13] == Base(base);
    case AdminState => assert BaseKeyOrder()[14] == Base(base);
    case _ =>
  }

  lemma BaseKeyOrderHoldsOpStateToUploadUrl(base: BaseName)
    requires base in {OpState, RfTxStatus, CellReserved, CellBarred, MmeIp, MmePort, NumPlmns, Plmn, Tac, IpSecEnable, PeriodicInformInterval, PerfMgmtEnable, PerfMgmtUploadInterval, PerfMgmtUploadUrl}
    ensures Base(base) in BaseKeyOrder()
  {
    match base
    case OpState => assert BaseKeyOrder()[15] == Base(base);
    case RfTxStatus => assert BaseKeyOrder()[16] == Base(base);
    case CellReserved => assert BaseKeyOrder()[17] == Base(base);
    case CellBarred => assert BaseKeyOrder()[18] == Base(base);
    case MmeIp => assert BaseKeyOrder()[19] == Base(base);
    case MmePort => assert BaseKeyOrder()[20] == Base(base);
    case NumPlmns => assert BaseKeyOrder()[21] == Base(base);
    case Plmn => assert BaseKeyOrder()[22] == Base(base);
    case Tac => assert BaseKeyOrder()[23] == Base(base);
    case IpSecEnable => assert BaseKeyOrder()[24] == Base(base);
    case PeriodicInformInterval => assert BaseKeyOrder()[25] == Base(base);
    case PerfMgmtEnable => assert BaseKeyOrder()[26] == Base(base);
    case PerfMgmtUploadInterval => assert BaseKeyOrder()[27] == Base(base);
    case PerfMgmtUploadUrl => assert BaseKeyOrder()[28] == Base(base);
    case _ =>
  }


  /** The dictionary literal's order lists every plain name and nothing else. */
  lemma BaseKeyOrderNames(name: ParamName)
    ensures name in BaseKeyOrder() <==> name.Base?
  {
    if name in BaseKeyOrder() {
      BaseKeyOrderPlain(name);
    }
    if name.Base? {
      match name.base
      case Device => BaseKeyOrderHoldsDeviceToAdminState(name.base);
      case FapService => BaseKeyOrderHoldsDeviceToAdminState(name.base);
      case GpsStatus => BaseKeyOrderHoldsDeviceToAdminState(name.base);
      case GpsLat => BaseKeyOrderHoldsDeviceToAdminState(name.base);
      case GpsLong => BaseKeyOrderHoldsDeviceToAdminState(name.base);
      case SwVersion => BaseKeyOrderHoldsDeviceToAdminState(name.base);
      case DuplexModeCapability => BaseKeyOrderHoldsDeviceToAdminState(name.base);
      case BandCapability => BaseKeyOrderHoldsDeviceToAdminState(name.base);
      case EarfcnDl => BaseKeyOrderHoldsDeviceToAdminState(name.base);
      case EarfcnUl => BaseKeyOrderHoldsDeviceToAdminState(name.base);
      case Band => BaseKeyOrderHoldsDeviceToAdminState(name.base);
      case Pci => BaseKeyOrderHoldsDeviceToAdminState(name.base);
      case DlBandwidth => BaseKeyOrderHoldsDeviceToAdminState(name.base);
      case UlBandwidth => BaseKeyOrderHoldsDeviceToAdminState(name.base);
      case AdminState => BaseKeyOrderHoldsDeviceToAdminState(name.base);
      case OpState => BaseKeyOrderHoldsOpStateToUploadUrl(name.base);
      case RfTxStatus => BaseKeyOrderHoldsOpStateToUploadUrl(name.base);
      case CellReserved => BaseKeyOrderHoldsOpStateToUploadUrl(name.base);
      case CellBarred => BaseKeyOrderHoldsOpStateToUploadUrl(name.base);
      case MmeIp => BaseKeyOrderHoldsOpStateToUploadUrl(name.base);
      case MmePort => BaseKeyOrderHoldsOpStateToUploadUrl(name.base);
      case NumPlmns => BaseKeyOrderHoldsOpStateToUploadUrl(name.base);
      case Plmn => BaseKeyOrderHoldsOpStateToUploadUrl(name.base);
      case Tac => BaseKeyOrderHoldsOpStateToUploadUrl(name.base);
      case IpSecEnable => BaseKeyOrderHoldsOpStateToUploadUrl(name.base);
      case PeriodicInformInterval => BaseKeyOrderHoldsOpStateToUploadUrl(name.base);
      case PerfMgmtEnable => BaseKeyOrderHoldsOpStateToUploadUrl(name.base);
      case PerfMgmtUploadInterval => BaseKeyOrderHoldsOpStateToUploadUrl(name.base);
      case PerfMgmtUploadUrl => BaseKeyOrderHoldsOpStateToUploadUrl(name.base);
    }
  }

  lemma {:induction false} PlmnKeyOrderNames(n: int, name: ParamName)
    ensures name in PlmnKeyOrder(n) <==> name.Numbered? && 1 <= name.i <= n
    decreases n
  {
    if n >= 1 {
      PlmnKeyOrderNames(n - 1, name);
      if name.Numbered? && name.i == n {
        match name.field
        case PlmnN =>
        case PlmnNCellReserved =>
        case PlmnNEnable =>
        case PlmnNPrimary =>
        case PlmnNPlmnId =>
      }
    }
  }

  /** The insertion order lists exactly the catalog's names. */
  lemma KeyOrderNames(name: ParamName)
    ensures name in KeyOrder() <==> name in Parameters()
  {
    BaseKeyOrderNames(name);
    PlmnKeyOrderNames(NumPlmnsInConfig, name);
    CatalogNames(name);
  }

  /** The filter of `get_parameter_names`: not starting with 'PLMN', and neither DEVICE nor FAP_SERVICE. */
  predicate IsListedName(name: ParamName) {
    !StartsWithPlmn(name) && name != Base(Device) && name != Base(FapService)
  }

  /** Python's `filter` with `IsListedName`: keeps the listed names, in order. */
  function FilterListed(names: seq<ParamName>): (r: seq<ParamName>)
    ensures forall name :: name in r <==> name in names && IsListedName(name)
    ensures |r| <= |names|
  {
    if names == [] then []
    else if IsListedName(names[0]) then [names[0]] + FilterListed(names[1..])
    else FilterListed(names[1..])
  }

  /** `get_parameter_names`: the catalog's names that pass the filter, in insertion order. */
  function GetParameterNames(): (r: seq<ParamName>)
    ensures forall name :: name in r <==> name in Parameters() && IsListedName(name)
  {
    var r := FilterListed(KeyOrder());
    forall name ensures name in r <==> name in Parameters() && IsListedName(name) {
      KeyOrderNames(name);
    }
    r
  }

  /** The plain rows that are objects: `Device.`, the FAPService object and the PLMN list. */
  lemma ObjectRows(base: BaseName)
    ensures TypeOf(Base(base)) == Object <==> base == Device || base == FapService || base == Plmn
  {
    match base
    case Device =>
    case FapService =>
    case GpsStatus =>
    case GpsLat =>
    case GpsLong =>
    case SwVersion =>
    case DuplexModeCapability =>
    case BandCapability =>
    case EarfcnDl =>
    case EarfcnUl =>
    case Band =>
    case Pci =>
    case DlBandwidth =>
    case UlBandwidth =>
    case AdminState =>
    case OpState =>
    case RfTxStatus =>
    case CellReserved =>
    case CellBarred =>
    case MmeIp =>
    case MmePort =>
    case NumPlmns =>
    case Plmn =>
    case Tac =>
    case IpSecEnable =>
    case PeriodicInformInterval =>
    case PerfMgmtEnable =>
    case PerfMgmtUploadInterval =>
    case PerfMgmtUploadUrl =>
  }

  /** The catalog names the filter keeps are exactly the plain names whose rows are not objects. */
  lemma ListedNamesAreScalars(name: ParamName)
    ensures InCatalog(name) && IsListedName(name) <==> name.Base? && TypeOf(name) != Object
  {
    if name.Base? {
      ObjectRows(name.base);
    }
  }

  /** `get_numbered_param_names`: each PLMN object of index 1..6 mapped to its four children. */
  method GetNumberedParamNames() returns (names: map<ParamName, seq<ParamName>>)
    ensures forall name :: name in names <==> name.Numbered? && name.field == PlmnN && 1 <= name.i <= NumPlmnsInConfig
    ensures forall i | 1 <= i <= NumPlmnsInConfig :: names[Numbered(PlmnN, i)] == PlmnChildren(i)
  {
    names := map[];
    for i := 1 to NumPlmnsInConfig + 1
      invariant forall name :: name in names <==> name.Numbered? && name.field == PlmnN && 1 <= name.i < i
      invariant forall j | 1 <= j < i :: names[Numbered(PlmnN, j)] == PlmnChildren(j)
    {
      var params := [];
      params := params + [Numbered(PlmnNCellReserved, i)];
      params := params + [Numbered(PlmnNEnable, i)];
      params := params + [Numbered(PlmnNPrimary, i)];
      params := params + [Numbered(PlmnNPlmnId, i)];
      assert params == PlmnChildren(i);
      names := names[Numbered(PlmnN, i) := params];
    }
  }

  /** The two value transforms the catalog names; their bodies are not part of this model. */
  datatype Transform = Bandwidth | GpsTr181

  /** `TRANSFORMS_FOR_ENB`: applied to a value before it is sent to the device. */
  function TransformsForEnb(): map<ParamName, Transform> {
    map[Base(DlBandwidth) := Bandwidth, Base(UlBandwidth) := Bandwidth]
  }

  /** `TRANSFORMS_FOR_MAGMA`: applied to a value read from the device. */
  function TransformsForMagma(): map<ParamName, Transform> {
    map[Base(GpsLat) := GpsTr181, Base(GpsLong) := GpsTr181]
  }

  /**
   * Each transform is keyed by a scalar row of the catalog with a true second flag: the
   * bandwidths are strings, the GPS coordinates integers.
   */
  lemma TransformsOnCatalogRows()
    ensures forall name | name in TransformsForEnb() :: InCatalog(name) && SecondFlag(name) && TypeOf(name) == String
    ensures forall name | name in TransformsForMagma() :: InCatalog(name) && SecondFlag(name) && TypeOf(name) == Int
  {
  }

  /** A parameter value as the configuration holds it. */
  datatype Value = BoolValue(b: bool) | IntValue(n: int) | StringValue(s: string)

  /**
   * The value sent to the device for a parameter: unchanged when no
   * transform is keyed by the name; None stands for the value a transform
   * computes, which is not part of this model.
   */
  function TransformForEnb(name: ParamName, value: Value): (r: Option<Value>)
    ensures r == Some(value) <==> name !in TransformsForEnb()
    ensures r == None <==> name in TransformsForEnb()
  {
    if name in TransformsForEnb() then None else Some(value)
  }

}
