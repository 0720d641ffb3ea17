/**
 * Market-option codes (`MKT_OPTIONS` and its eight source tables,
 * `decodeMktOption`, `decodeMktOptions`, `groupMktOptionsByCategory`).
 * An order carries its factory options as one comma-separated string of
 * codes; each code decodes to a category and a display name.
 */
module MktOptions {
  import opened Wrappers
  import opened Text

  datatype MktOptionInfo = MktOptionInfo(category: string, name: string)

  /** `PAINT_CODES`. */
  const PaintCodes: map<string, MktOptionInfo> := map[
    "PPSW" := MktOptionInfo("Pintura", "Blanco Perla Multicapa"),
    "PPSB" := MktOptionInfo("Pintura", "Azul Profundo Metálico"),
    "PMNG" := MktOptionInfo("Pintura", "Plata Midnight Metálico"),
    "PBSB" := MktOptionInfo("Pintura", "Negro Sólido"),
    "PPMR" := MktOptionInfo("Pintura", "Rojo Ultra"),
    "PPSR" := MktOptionInfo("Pintura", "Plata Rápida (Quicksilver)"),
    "PPSF" := MktOptionInfo("Pintura", "Rojo Signature"),
    "PR01" := MktOptionInfo("Pintura", "Rojo Multi-Capa"),
    "PN01" := MktOptionInfo("Pintura", "Gris Stealth (Gris Grafito)"),
    "PN00" := MktOptionInfo("Pintura", "Quicksilver"),
    "PBCW" := MktOptionInfo("Pintura", "Crema"),
    "PBFB" := MktOptionInfo("Pintura", "Negro Fluido"),
    "PP01" := MktOptionInfo("Pintura", "Azul Profundo Metálico"),
    "PMBL" := MktOptionInfo("Pintura", "Negro Obsidiana Metálico"),
    "PN02" := MktOptionInfo("Pintura", "Plata Midnight"),
    "PN03" := MktOptionInfo("Pintura", "Azul Profundo"),
    "PN04" := MktOptionInfo("Pintura", "Rojo Multi-Capa")
  ]

  /** `INTERIOR_CODES`. */
  const InteriorCodes: map<string, MktOptionInfo> := map[
    "INBFP" := MktOptionInfo("Interior", "Interior Premium Negro"),
    "INBPP" := MktOptionInfo("Interior", "Interior Semi-Premium Negro"),
    "INB3P" := MktOptionInfo("Interior", "Interior Negro"),
    "INWFP" := MktOptionInfo("Interior", "Interior Premium Blanco"),
    "IN3PB" := MktOptionInfo("Interior", "Interior Negro"),
    "IN3PW" := MktOptionInfo("Interior", "Interior Blanco"),
    "IPB7" := MktOptionInfo("Interior", "Interior Negro (Básico)")
  ]

  /** `WHEEL_CODES`. */
  const WheelCodes: map<string, MktOptionInfo> := map[
    "WY19P" := MktOptionInfo("Rines", "Rines Sport 19\""),
    "WY20P" := MktOptionInfo("Rines", "Rines Sport 20\""),
    "WY21P" := MktOptionInfo("Rines", "Rines 21\""),
    "WY18P" := MktOptionInfo("Rines", "Rines 18\""),
    "WY19B" := MktOptionInfo("Rines", "Rines 19\""),
    "WY20B" := MktOptionInfo("Rines", "Rines 20\""),
    "WTAS" := MktOptionInfo("Rines", "Rines Gemini 19\""),
    "WT20" := MktOptionInfo("Rines", "Rines Induction 20\""),
    "WT21" := MktOptionInfo("Rines", "Rines 21\""),
    "WT22" := MktOptionInfo("Rines", "Rines Turbine 22\"")
  ]

  /** `AUTOPILOT_CODES`. */
  const AutopilotCodes: map<string, MktOptionInfo> := map[
    "APFB" := MktOptionInfo("Autopilot", "Autopilot"),
    "APF2" := MktOptionInfo("Autopilot", "Autopilot Mejorado"),
    "APF3" := MktOptionInfo("Autopilot", "Conducción Autónoma Total"),
    "APFA" := MktOptionInfo("Autopilot", "Autopilot (Básico)")
  ]

  /** `CHARGER_CODES`. */
  const ChargerCodes: map<string, MktOptionInfo> := map[
    "SC04" := MktOptionInfo("Carga", "Supercargador Habilitado"),
    "SC05" := MktOptionInfo("Carga", "Acceso a Supercargador"),
    "SC06" := MktOptionInfo("Carga", "Supercarga Gratuita"),
    "CH15" := MktOptionInfo("Carga", "Cargador 48A"),
    "CH16" := MktOptionInfo("Carga", "Cargador 72A"),
    "CH17" := MktOptionInfo("Carga", "Cargador 80A"),
    "CH18" := MktOptionInfo("Carga", "Cargador de Alto Amperaje")
  ]

  /** `PACKAGE_CODES`. */
  const PackageCodes: map<string, MktOptionInfo> := map[
    "CPF0" := MktOptionInfo("Paquete", "Paquete Estándar"),
    "CPF1" := MktOptionInfo("Paquete", "Paquete Premium"),
    "CPF2" := MktOptionInfo("Paquete", "Paquete Performance"),
    "CVF0" := MktOptionInfo("Configuración", "Configuración 5 Asientos"),
    "CVF1" := MktOptionInfo("Configuración", "Configuración 7 Asientos"),
    "WXF0" := MktOptionInfo("Remolque", "Sin Paquete de Remolque"),
    "WXF1" := MktOptionInfo("Remolque", "Paquete de Remolque"),
    "DCF0" := MktOptionInfo("Clima", "Sin Paquete Clima Frío"),
    "DCF1" := MktOptionInfo("Clima", "Paquete Clima Frío"),
    "SLR1" := MktOptionInfo("Aerodinámica", "Alerón de Fibra de Carbono")
  ]

  /** `BATTERY_CODES`. */
  const BatteryCodes: map<string, MktOptionInfo> := map[
    "BT35" := MktOptionInfo("Batería", "Batería Autonomía Estándar"),
    "BT40" := MktOptionInfo("Batería", "Batería Autonomía Extendida"),
    "BT42" := MktOptionInfo("Batería", "Batería Autonomía Extendida Plus"),
    "BT43" := MktOptionInfo("Batería", "Batería Performance"),
    "BT45" := MktOptionInfo("Batería", "Batería Plaid"),
    "BTX4" := MktOptionInfo("Batería", "Batería Model Y"),
    "BTX5" := MktOptionInfo("Batería", "Batería Model 3"),
    "BTX6" := MktOptionInfo("Batería", "Batería Model S"),
    "BTX7" := MktOptionInfo("Batería", "Batería Model X")
  ]

  /** `MODEL_CONFIG_CODES`. */
  const ModelConfigCodes: map<string, MktOptionInfo> := map[
    "MDLY" := MktOptionInfo("Modelo", "Configuración Model Y"),
    "MDL3" := MktOptionInfo("Modelo", "Configuración Model 3"),
    "MDLS" := MktOptionInfo("Modelo", "Configuración Model S"),
    "MDLX" := MktOptionInfo("Modelo", "Configuración Model X"),
    "MTY46" := MktOptionInfo("Motor", "Motor Trasero Model Y"),
    "MT346" := MktOptionInfo("Motor", "Motor Trasero Model 3"),
    "STY5S" := MktOptionInfo("Versión", "Model Y Estándar"),
    "ST35S" := MktOptionInfo("Versión", "Model 3 Estándar"),
    "MTY03" := MktOptionInfo("Versión", "Model Y Long Range All-Wheel Drive"),
    "MTY04" := MktOptionInfo("Versión", "Model Y Performance"),
    "MTY01" := MktOptionInfo("Versión", "Model Y Rear-Wheel Drive"),
    "MT301" := MktOptionInfo("Versión", "Model 3 Rear-Wheel Drive"),
    "MT303" := MktOptionInfo("Versión", "Model 3 Long Range"),
    "MT304" := MktOptionInfo("Versión", "Model 3 Performance"),
    "GENERAL_PRODUCTION" := MktOptionInfo("Serie", "Producción General"),
    "GENERAL" := MktOptionInfo("Serie", "Producción General")
  ]

  /**
   * `MKT_OPTIONS`: the eight tables spread into one object, in source
   * order. Map `+` keeps the right-hand entry on a shared key, as a later
   * spread does.
   */
  const MktOptions: map<string, MktOptionInfo> :=
    PaintCodes + InteriorCodes + WheelCodes + AutopilotCodes
    + ChargerCodes + PackageCodes + BatteryCodes + ModelConfigCodes

  /** The category given to a code no table knows. */
  const OtherCategory := "Otro"

  // ------------------------------------------------- the merged table

  /**
   * The table a code belongs to, read off its first two letters (-1 for
   * none): each table's codes start with letters no other table's codes
   * start with.
   */
  function TableOf(k: string): int
  {
    if |k| < 2 then -1
    else if k[0] == 'P' then 0
    else if k[0] == 'I' then 1
    else if k[0] == 'W' then (if k[1] == 'X' then 5 else 2)
    else if k[0] == 'A' then 3
    else if k[0] == 'S' then (if k[1] == 'C' then 4 else if k[1] == 'L' then 5 else if k[1] == 'T' then 7 else -1)
    else if k[0] == 'C' then (if k[1] == 'H' then 4 else 5)
    else if k[0] == 'D' then 5
    else if k[0] == 'B' then 6
    else if k[0] == 'M' || k[0] == 'G' then 7
    else -1
  }

  lemma PaintKeysTableOf()
    ensures forall k | k in PaintCodes :: TableOf(k) == 0
  {
  }

  lemma InteriorKeysTableOf()
    ensures forall k | k in InteriorCodes :: TableOf(k) == 1
  {
  }

  lemma WheelKeysTableOf()
    ensures forall k | k in WheelCodes :: TableOf(k) == 2
  {
  }

  lemma AutopilotKeysTableOf()
    ensures forall k | k in AutopilotCodes :: TableOf(k) == 3
  {
  }

  lemma ChargerKeysTableOf()
    ensures forall k | k in ChargerCodes :: TableOf(k) == 4
  {
  }

  lemma PackageKeysTableOf()
    ensures forall k | k in PackageCodes :: TableOf(k) == 5
  {
  }

  lemma BatteryKeysTableOf()
    ensures forall k | k in BatteryCodes :: TableOf(k) == 6
  {
  }

  lemma ModelConfigKeysTableOf()
    ensures forall k | k in ModelConfigCodes :: TableOf(k) == 7
  {
  }

  // No code of a table reappears in a table spread after it.

  lemma PaintNotShadowed()
    ensures forall k | k in PaintCodes ::
              && k !in InteriorCodes
              && k !in WheelCodes
              && k !in AutopilotCodes
              && k !in ChargerCodes
              && k !in PackageCodes
              && k !in BatteryCodes
              && k !in ModelConfigCodes
  {
    PaintKeysTableOf();
    InteriorKeysTableOf();
    WheelKeysTableOf();
    AutopilotKeysTableOf();
    ChargerKeysTableOf();
    PackageKeysTableOf();
    BatteryKeysTableOf();
    ModelConfigKeysTableOf();
  }

  lemma InteriorNotShadowed()
    ensures forall k | k in InteriorCodes ::
              && k !in WheelCodes
              && k !in AutopilotCodes
              && k !in ChargerCodes
              && k !in PackageCodes
              && k !in BatteryCodes
              && k !in ModelConfigCodes
  {
    InteriorKeysTableOf();
    WheelKeysTableOf();
    AutopilotKeysTableOf();
    ChargerKeysTableOf();
    PackageKeysTableOf();
    BatteryKeysTableOf();
    ModelConfigKeysTableOf();
  }

  lemma WheelNotShadowed()
    ensures forall k | k in WheelCodes ::
              && k !in AutopilotCodes
              && k !in ChargerCodes
              && k !in PackageCodes
              && k !in BatteryCodes
              && k !in ModelConfigCodes
  {
    WheelKeysTableOf();
    AutopilotKeysTableOf();
    ChargerKeysTableOf();
    PackageKeysTableOf();
    BatteryKeysTableOf();
    ModelConfigKeysTableOf();
  }

  lemma AutopilotNotShadowed()
    ensures forall k | k in AutopilotCodes ::
              && k !in ChargerCodes
              && k !in PackageCodes
              && k !in BatteryCodes
              && k !in ModelConfigCodes
  {
    AutopilotKeysTableOf();
    ChargerKeysTableOf();
    PackageKeysTableOf();
    BatteryKeysTableOf();
    ModelConfigKeysTableOf();
  }

  lemma ChargerNotShadowed()
    ensures forall k | k in ChargerCodes ::
              && k !in PackageCodes
              && k !in BatteryCodes
              && k !in ModelConfigCodes
  {
    ChargerKeysTableOf();
    PackageKeysTableOf();
    BatteryKeysTableOf();
    ModelConfigKeysTableOf();
  }

  lemma PackageNotShadowed()
    ensures forall k | k in PackageCodes ::
              && k !in BatteryCodes
              && k !in ModelConfigCodes
  {
    PackageKeysTableOf();
    BatteryKeysTableOf();
    ModelConfigKeysTableOf();
  }

  lemma BatteryNotShadowed()
    ensures forall k | k in BatteryCodes ::
              && k !in ModelConfigCodes
  {
    BatteryKeysTableOf();
    ModelConfigKeysTableOf();
  }

  // So the spread keeps every entry of every table unchanged.

  lemma PaintInMerged()
    ensures forall k | k in PaintCodes :: k in MktOptions && MktOptions[k] == PaintCodes[k]
  {
    PaintNotShadowed();
  }

  lemma InteriorInMerged()
    ensures forall k | k in InteriorCodes :: k in MktOptions && MktOptions[k] == InteriorCodes[k]
  {
    InteriorNotShadowed();
  }

  lemma WheelInMerged()
    ensures forall k | k in WheelCodes :: k in MktOptions && MktOptions[k] == WheelCodes[k]
  {
    WheelNotShadowed();
  }

  lemma AutopilotInMerged()
    ensures forall k | k in AutopilotCodes :: k in MktOptions && MktOptions[k] == AutopilotCodes[k]
  {
    AutopilotNotShadowed();
  }

  lemma ChargerInMerged()
    ensures forall k | k in ChargerCodes :: k in MktOptions && MktOptions[k] == ChargerCodes[k]
  {
    ChargerNotShadowed();
  }

  lemma PackageInMerged()
    ensures forall k | k in PackageCodes :: k in MktOptions && MktOptions[k] == PackageCodes[k]
  {
    PackageNotShadowed();
  }

  lemma BatteryInMerged()
    ensures forall k | k in BatteryCodes :: k in MktOptions && MktOptions[k] == BatteryCodes[k]
  {
    BatteryNotShadowed();
  }

  lemma ModelConfigInMerged()
    ensures forall k | k in ModelConfigCodes :: k in MktOptions && MktOptions[k] == ModelConfigCodes[k]
  {
  }

  /** ... and the merged table holds nothing else. */
  lemma MergedKeysAreTableKeys()
    ensures MktOptions.Keys
         == PaintCodes.Keys + InteriorCodes.Keys + WheelCodes.Keys + AutopilotCodes.Keys
          + ChargerCodes.Keys + PackageCodes.Keys + BatteryCodes.Keys + ModelConfigCodes.Keys
  {
  }

  // No table entry is filed under the fallback category.

  lemma PaintCategories()
    ensures forall k | k in PaintCodes :: PaintCodes[k].category == "Pintura"
  {
  }

  lemma InteriorCategories()
    ensures forall k | k in InteriorCodes :: InteriorCodes[k].category == "Interior"
  {
  }

  lemma WheelCategories()
    ensures forall k | k in WheelCodes :: WheelCodes[k].category == "Rines"
  {
  }

  lemma AutopilotCategories()
    ensures forall k | k in AutopilotCodes :: AutopilotCodes[k].category == "Autopilot"
  {
  }

  lemma ChargerCategories()
    ensures forall k | k in ChargerCodes :: ChargerCodes[k].category == "Carga"
  {
  }

  lemma PackageCategories()
    ensures forall k | k in PackageCodes :: PackageCodes[k].category != OtherCategory
  {
  }

  lemma BatteryCategories()
    ensures forall k | k in BatteryCodes :: BatteryCodes[k].category == "Batería"
  {
  }

  lemma ModelConfigCategories()
    ensures forall k | k in ModelConfigCodes :: ModelConfigCodes[k].category != OtherCategory
  {
  }

  lemma PaintOrInteriorNotOther()
    ensures forall k | k in PaintCodes || k in InteriorCodes :: MktOptions[k].category != OtherCategory
  {
    PaintInMerged();
    PaintCategories();
    InteriorInMerged();
    InteriorCategories();
  }

  lemma WheelOrAutopilotNotOther()
    ensures forall k | k in WheelCodes || k in AutopilotCodes :: MktOptions[k].category != OtherCategory
  {
    WheelInMerged();
    WheelCategories();
    AutopilotInMerged();
    AutopilotCategories();
  }

  lemma ChargerOrPackageNotOther()
    ensures forall k | k in ChargerCodes || k in PackageCodes :: MktOptions[k].category != OtherCategory
  {
    ChargerInMerged();
    ChargerCategories();
    PackageInMerged();
    PackageCategories();
  }

  lemma BatteryOrModelConfigNotOther()
    ensures forall k | k in BatteryCodes || k in ModelConfigCodes :: MktOptions[k].category != OtherCategory
  {
    BatteryInMerged();
    BatteryCategories();
    ModelConfigInMerged();
    ModelConfigCategories();
  }

  /** Every entry of `MKT_OPTIONS` has a real category. */
  lemma NoEntryIsOther()
    ensures forall k | k in MktOptions :: MktOptions[k].category != OtherCategory
  {
    MergedKeysAreTableKeys();
    PaintOrInteriorNotOther();
    WheelOrAutopilotNotOther();
    ChargerOrPackageNotOther();
    BatteryOrModelConfigNotOther();
  }

  // ---------------------------------------------------------- decoding

  /**
   * `decodeMktOption`: look up the upper-cased, trimmed code; an unknown
   * code is filed under "Otro" with the code, as given, for its name.
   */
  function DecodeMktOption(code: string): (r: MktOptionInfo)
    ensures Trim(Upper(code)) in MktOptions ==> r == MktOptions[Trim(Upper(code))]
    ensures Trim(Upper(code)) !in MktOptions ==> r == MktOptionInfo(OtherCategory, code)
  {
    var key := Trim(Upper(code));
    if key in MktOptions then MktOptions[key] else MktOptionInfo(OtherCategory, code)
  }

  /** A decoded option is "Otro" exactly when its code is in no table. */
  lemma OtherIffUnknown(code: string)
    ensures DecodeMktOption(code).category == OtherCategory <==> Trim(Upper(code)) !in MktOptions
  {
    NoEntryIsOther();
  }

  /** Known codes match whatever their case and surrounding white space. */
  lemma DecodeIgnoresCaseAndSpace(c1: string, c2: string)
    requires Trim(Upper(c1)) == Trim(Upper(c2)) && Trim(Upper(c1)) in MktOptions
    ensures DecodeMktOption(c1) == DecodeMktOption(c2)
  {
  }

  /** `.map(c => c.trim())`. */
  function TrimAll(parts: seq<string>): (r: seq<string>)
    ensures |r| == |parts|
    ensures forall i :: 0 <= i < |parts| ==> r[i] == Trim(parts[i])
  {
    seq(|parts|, i requires 0 <= i < |parts| => Trim(parts[i]))
  }

  /** `.filter(Boolean)` on strings: drop the empty ones, keep the order. */
  function DropEmpty(parts: seq<string>): (r: seq<string>)
    ensures |r| <= |parts|
    ensures forall t :: t in r <==> t in parts && t != ""
  {
    if parts == [] then []
    else if parts[0] == "" then DropEmpty(parts[1..])
    else [parts[0]] + DropEmpty(parts[1..])
  }

  /** Trimming only removes characters, so it adds no new character. */
  lemma TrimmedHasNo(s: string, c: char)
    requires c !in s
    ensures c !in Trim(s)
  {
  }

  /** The codes of an option string: split on ',', trimmed, empty ones dropped. */
  function Tokens(s: string): (r: seq<string>)
    ensures |r| <= |Split(s, ',')|
  {
    DropEmpty(TrimAll(Split(s, ',')))
  }

  /** Every code is non-empty, holds no comma and has no white space at either end. */
  lemma TokensArePlainCodes(s: string)
    ensures forall t :: t in Tokens(s) ==> t != "" && ',' !in t && Trim(t) == t
  {
    var pieces := Split(s, ',');
    forall t | t in Tokens(s)
      ensures t != "" && ',' !in t && Trim(t) == t
    {
      var i :| 0 <= i < |pieces| && t == Trim(pieces[i]);
      SplitPiecesLackSeparator(s, ',');
      TrimIdempotent(pieces[i]);
      TrimmedHasNo(pieces[i], ',');
    }
  }

  /** `xs.map(f)`. */
  function MapSeq<A, B>(f: A -> B, xs: seq<A>): (r: seq<B>)
    ensures |r| == |xs|
    ensures forall i :: 0 <= i < |xs| ==> r[i] == f(xs[i])
  {
    seq(|xs|, i requires 0 <= i < |xs| => f(xs[i]))
  }

  /**
   * `decodeMktOptions`: nothing for a missing or empty string, otherwise one
   * decoded option per code, in the order the codes appear.
   */
  function DecodeMktOptions(options: Option<string>): (r: seq<MktOptionInfo>)
    ensures Absent(options) ==> r == []
    ensures !Absent(options) ==> |r| == |Tokens(options.value)|
    ensures !Absent(options) ==>
              forall i :: 0 <= i < |r| ==> r[i] == DecodeMktOption(Tokens(options.value)[i])
  {
    if Absent(options) then [] else MapSeq(DecodeMktOption, Tokens(options.value))
  }

  // ------------------------------------------- codes of a joined string

  lemma TrimAllAppend(xs: seq<string>, ys: seq<string>)
    ensures TrimAll(xs + ys) == TrimAll(xs) + TrimAll(ys)
  {
  }

  /** Every non-empty piece is kept as often as it occurs; only `""` is dropped. */
  lemma {:induction false} DropEmptyKeepsCopies(parts: seq<string>)
    ensures multiset(DropEmpty(parts)) == multiset(parts)["" := 0]
  {
    if parts != [] {
      assert parts == [parts[0]] + parts[1..];
      DropEmptyKeepsCopies(parts[1..]);
    }
  }

  /** One piece is kept exactly when it is not empty. */
  lemma DropEmptySingleton(x: string)
    ensures DropEmpty([x]) == if x == "" then [] else [x]
  {
    assert [x][1..] == [];
  }

  lemma {:induction false} DropEmptyAppend(xs: seq<string>, ys: seq<string>)
    ensures DropEmpty(xs + ys) == DropEmpty(xs) + DropEmpty(ys)
  {
    if xs != [] {
      assert (xs + ys)[0] == xs[0];
      assert (xs + ys)[1..] == xs[1..] + ys;
      DropEmptyAppend(xs[1..], ys);
    } else {
      assert xs + ys == ys;
    }
  }

  lemma MapSeqAppend<A, B>(f: A -> B, xs: seq<A>, ys: seq<A>)
    ensures MapSeq(f, xs + ys) == MapSeq(f, xs) + MapSeq(f, ys)
  {
  }

  /** The codes of `a,b` are the codes of `a` followed by the codes of `b`. */
  lemma TokensAppend(a: string, b: string)
    ensures Tokens(a + [','] + b) == Tokens(a) + Tokens(b)
  {
    SplitAppend(a, b, ',');
    TrimAllAppend(Split(a, ','), Split(b, ','));
    DropEmptyAppend(TrimAll(Split(a, ',')), TrimAll(Split(b, ',')));
  }

  /** A piece without a comma is one code, or none if it is only white space. */
  lemma TokensOfPiece(s: string)
    requires ',' !in s
    ensures Tokens(s) == if Trim(s) == "" then [] else [Trim(s)]
  {
    SplitNoSeparator(s, ',');
    assert TrimAll([s]) == [Trim(s)];
  }

  /** An absent option string has no codes either. */
  lemma DecodeViaTokens(s: string)
    ensures DecodeMktOptions(Some(s)) == MapSeq(DecodeMktOption, Tokens(s))
  {
    if s == "" {
      TokensOfPiece(s);
    }
  }

  /** Decoding a joined option string is decoding each side in turn. */
  lemma DecodeMktOptionsAppend(a: string, b: string)
    ensures DecodeMktOptions(Some(a + [','] + b))
         == DecodeMktOptions(Some(a)) + DecodeMktOptions(Some(b))
  {
    DecodeViaTokens(a + [','] + b);
    DecodeViaTokens(a);
    DecodeViaTokens(b);
    TokensAppend(a, b);
    MapSeqAppend(DecodeMktOption, Tokens(a), Tokens(b));
  }

  /** A string of white space only decodes to nothing. */
  lemma BlankDecodesToNothing(s: string)
    requires forall k :: 0 <= k < |s| ==> IsSpace(s[k])
    ensures DecodeMktOptions(Some(s)) == []
  {
    if s != "" {
      assert ',' !in s by {
        assert !IsSpace(',');
      }
      TokensOfPiece(s);
      TrimAllSpace(s);
    }
  }

  // ------------------------------------------------------------ example

  lemma TrimOfCode(s: string)
    requires |s| > 0 && !IsSpace(s[0]) && !IsSpace(s[|s| - 1])
    ensures Trim(s) == s
  {
  }

  // Membership facts about single literal codes, one table at a time.

  lemma PpswIsPaint()
    ensures "PPSW" in PaintCodes && PaintCodes["PPSW"] == MktOptionInfo("Pintura", "Blanco Perla Multicapa")
  {
  }

  lemma PpswNotInInterior()
    ensures "PPSW" !in InteriorCodes
  {
  }

  lemma PpswNotInWheel()
    ensures "PPSW" !in WheelCodes
  {
  }

  lemma PpswNotInAutopilot()
    ensures "PPSW" !in AutopilotCodes
  {
  }

  lemma PpswNotInCharger()
    ensures "PPSW" !in ChargerCodes
  {
  }

  lemma PpswNotInPackage()
    ensures "PPSW" !in PackageCodes
  {
  }

  lemma PpswNotInBattery()
    ensures "PPSW" !in BatteryCodes
  {
  }

  lemma PpswNotInModelConfig()
    ensures "PPSW" !in ModelConfigCodes
  {
  }

  lemma Wy19pIsWheel()
    ensures "WY19P" in WheelCodes && WheelCodes["WY19P"] == MktOptionInfo("Rines", "Rines Sport 19\"")
  {
  }

  lemma Wy19pNotInAutopilot()
    ensures "WY19P" !in AutopilotCodes
  {
  }

  lemma Wy19pNotInCharger()
    ensures "WY19P" !in ChargerCodes
  {
  }

  lemma Wy19pNotInPackage()
    ensures "WY19P" !in PackageCodes
  {
  }

  lemma Wy19pNotInBattery()
    ensures "WY19P" !in BatteryCodes
  {
  }

  lemma Wy19pNotInModelConfig()
    ensures "WY19P" !in ModelConfigCodes
  {
  }

  lemma PaintExampleKey()
    ensures "PPSW" in MktOptions && MktOptions["PPSW"] == MktOptionInfo("Pintura", "Blanco Perla Multicapa")
  {
    PpswIsPaint();
    PpswNotInInterior();
    PpswNotInWheel();
    PpswNotInAutopilot();
    PpswNotInCharger();
    PpswNotInPackage();
    PpswNotInBattery();
    PpswNotInModelConfig();
  }

  lemma WheelExampleKey()
    ensures "WY19P" in MktOptions && MktOptions["WY19P"] == MktOptionInfo("Rines", "Rines Sport 19\"")
  {
    Wy19pIsWheel();
    Wy19pNotInAutopilot();
    Wy19pNotInCharger();
    Wy19pNotInPackage();
    Wy19pNotInBattery();
    Wy19pNotInModelConfig();
  }

  lemma DecodesPaintExample()
    ensures DecodeMktOption("PPSW") == MktOptionInfo("Pintura", "Blanco Perla Multicapa")
  {
    assert Upper("PPSW") == "PPSW" by {
      assert forall i | 0 <= i < 4 :: Upper("PPSW")[i] == "PPSW"[i];
    }
    TrimOfCode("PPSW");
    PaintExampleKey();
  }

  lemma DecodesWheelExample()
    ensures DecodeMktOption("WY19P") == MktOptionInfo("Rines", "Rines Sport 19\"")
  {
    assert Upper("WY19P") == "WY19P" by {
      assert forall i | 0 <= i < 5 :: Upper("WY19P")[i] == "WY19P"[i];
    }
    TrimOfCode("WY19P");
    WheelExampleKey();
  }

  lemma UnlistedNotInFirstTables(k: string)
    requires TableOf(k) == -1
    ensures k !in PaintCodes && k !in InteriorCodes && k !in WheelCodes && k !in AutopilotCodes
  {
    PaintKeysTableOf();
    InteriorKeysTableOf();
    WheelKeysTableOf();
    AutopilotKeysTableOf();
  }

  lemma UnlistedNotInLastTables(k: string)
    requires TableOf(k) == -1
    ensures k !in ChargerCodes && k !in PackageCodes && k !in BatteryCodes && k !in ModelConfigCodes
  {
    ChargerKeysTableOf();
    PackageKeysTableOf();
    BatteryKeysTableOf();
    ModelConfigKeysTableOf();
  }

  /** A code whose first letters start no table's codes is unknown. */
  lemma UnlistedInitialIsUnknown(k: string)
    requires TableOf(k) == -1
    ensures k !in MktOptions
  {
    MergedKeysAreTableKeys();
    UnlistedNotInFirstTables(k);
    UnlistedNotInLastTables(k);
  }

  lemma DecodesUnknownExample()
    ensures DecodeMktOption("unknowncode") == MktOptionInfo(OtherCategory, "unknowncode")
  {
    var key := Upper("unknowncode");
    assert |key| == 11 && key[0] == 'U' && key[10] == 'E';
    TrimOfCode(key);
    UnlistedInitialIsUnknown(key);
  }

  /** A piece holding one code with no surrounding white space is that code. */
  lemma TokensOfCode(s: string)
    requires ',' !in s && |s| > 0 && !IsSpace(s[0]) && !IsSpace(s[|s| - 1])
    ensures Tokens(s) == [s]
  {
    TokensOfPiece(s);
    TrimOfCode(s);
  }

  /** A piece holding one code after a single space is that code. */
  lemma TokensOfSpacedCode(s: string)
    requires ',' !in s && |s| > 0 && !IsSpace(s[0]) && !IsSpace(s[|s| - 1])
    ensures Tokens([' '] + s) == [s]
  {
    TokensOfPiece([' '] + s);
    TrimAfterSpace(s);
  }

  /** A code with no comma and no white space at either end. */
  predicate IsPlainCode(s: string)
  {
    ',' !in s && |s| > 0 && !IsSpace(s[0]) && !IsSpace(s[|s| - 1])
  }

  /** Three codes written as `"A, B, C"` are three tokens, in that order. */
  lemma TokensOfThreeCodes(a: string, b: string, c: string)
    requires IsPlainCode(a) && IsPlainCode(b) && IsPlainCode(c)
    ensures Tokens(a + ", " + b + ", " + c) == [a, b, c]
  {
    var sb, sc := [' '] + b, [' '] + c;
    assert a + ", " + b + ", " + c == a + [','] + (sb + [','] + sc);
    TokensAppend(a, sb + [','] + sc);
    TokensAppend(sb, sc);
    TokensOfCode(a);
    TokensOfSpacedCode(b);
    TokensOfSpacedCode(c);
  }

  lemma MapSeqThree<A, B>(f: A -> B, x: A, y: A, z: A)
    ensures MapSeq(f, [x, y, z]) == [f(x), f(y), f(z)]
  {
  }

  /**
   * Three codes written as `"A, B, C"` decode to the three options in that
   * order, each looked up on its own.
   */
  lemma DecodeThreeCodes(a: string, b: string, c: string)
    requires IsPlainCode(a) && IsPlainCode(b) && IsPlainCode(c)
    ensures DecodeMktOptions(Some(a + ", " + b + ", " + c))
         == [DecodeMktOption(a), DecodeMktOption(b), DecodeMktOption(c)]
  {
    TokensOfThreeCodes(a, b, c);
    DecodeViaTokens(a + ", " + b + ", " + c);
    MapSeqThree(DecodeMktOption, a, b, c);
  }

  /**
   * `"PPSW, WY19P, unknowncode"` gives a paint, a wheel and an unknown
   * option, in that order; the unknown one keeps its lower-case name.
   */
  lemma DecodeOptionsExample()
    ensures DecodeMktOptions(Some("PPSW" + ", " + "WY19P" + ", " + "unknowncode"))
         == [ MktOptionInfo("Pintura", "Blanco Perla Multicapa"),
              MktOptionInfo("Rines", "Rines Sport 19\""),
              MktOptionInfo(OtherCategory, "unknowncode") ]
  {
    DecodeThreeCodes("PPSW", "WY19P", "unknowncode");
    DecodesPaintExample();
    DecodesWheelExample();
    DecodesUnknownExample();
  }

  // ----------------------------------------------------------- grouping

  /** The distinct categories of `options`, in order of first appearance. */
  function Categories(options: seq<MktOptionInfo>): (r: seq<string>)
  {
    if options == [] then []
    else
      var earlier := Categories(options[..|options| - 1]);
      var c := options[|options| - 1].category;
      if c in earlier then earlier else earlier + [c]
  }

  /** The options of category `c`, in input order. */
  function OfCategory(options: seq<MktOptionInfo>, c: string): (r: seq<MktOptionInfo>)
    ensures |r| <= |options|
  {
    if options == [] then []
    else
      var last := options[|options| - 1];
      OfCategory(options[..|options| - 1], c) + (if last.category == c then [last] else [])
  }

  lemma CategoriesSnoc(options: seq<MktOptionInfo>, o: MktOptionInfo)
    ensures Categories(options + [o])
         == if o.category in Categories(options) then Categories(options)
            else Categories(options) + [o.category]
  {
    assert (options + [o])[..|options|] == options;
  }

  lemma OfCategorySnoc(options: seq<MktOptionInfo>, o: MktOptionInfo, c: string)
    ensures OfCategory(options + [o], c)
         == OfCategory(options, c) + (if o.category == c then [o] else [])
  {
    assert (options + [o])[..|options|] == options;
  }

  /** A category is listed exactly when some option carries it. */
  lemma {:induction false} CategoriesAreThoseSeen(options: seq<MktOptionInfo>, c: string)
    ensures c in Categories(options) <==> exists o :: o in options && o.category == c
  {
    if options != [] {
      var init := options[..|options| - 1];
      var last := options[|options| - 1];
      assert options == init + [last];
      CategoriesAreThoseSeen(init, c);
      CategoriesSnoc(init, last);
      if c in Categories(options) && c !in Categories(init) {
        assert last in options;
      }
      if exists o :: o in options && o.category == c {
        var o :| o in options && o.category == c;
        if o != last {
          assert o in init;
        }
      }
    }
  }

  /** A group holds exactly the options of its category. */
  lemma {:induction false} OfCategoryMembers(options: seq<MktOptionInfo>, c: string, o: MktOptionInfo)
    ensures o in OfCategory(options, c) <==> o in options && o.category == c
  {
    if options != [] {
      var init := options[..|options| - 1];
      var last := options[|options| - 1];
      assert options == init + [last];
      OfCategoryMembers(init, c, o);
      OfCategorySnoc(init, last, c);
    }
  }

  /**
   * `groupMktOptionsByCategory`: one pass that opens a group the first time
   * a category is seen and appends each option to its group. `order` is the
   * order in which the result object's keys were created.
   */
  method GroupByCategory(options: seq<MktOptionInfo>)
      returns (order: seq<string>, groups: map<string, seq<MktOptionInfo>>)
    ensures order == Categories(options)
    ensures forall c :: c in groups <==> c in order
    ensures forall c :: c in groups ==> groups[c] == OfCategory(options, c)
  {
    order, groups := [], map[];
    var i := 0;
    while i < |options|
      invariant 0 <= i <= |options|
      invariant order == Categories(options[..i])
      invariant forall c :: c in groups <==> c in order
      invariant forall c :: c in groups ==> groups[c] == OfCategory(options[..i], c)
    {
      var option := options[i];
      var c := option.category;
      assert options[..i + 1] == options[..i] + [option];
      CategoriesSnoc(options[..i], option);
      if c !in groups {
        GroupNonEmptyIffSeen(options[..i], c);
        order := order + [c];
        groups := groups[c := []];
      }
      groups := groups[c := groups[c] + [option]];
      forall d | d in groups
        ensures groups[d] == OfCategory(options[..i + 1], d)
      {
        OfCategorySnoc(options[..i], option, d);
      }
      i := i + 1;
    }
    assert options[..i] == options;
  }

  /** No category is listed twice. */
  lemma {:induction false} CategoriesDistinct(options: seq<MktOptionInfo>)
    ensures forall i, j :: 0 <= i < j < |Categories(options)| ==> Categories(options)[i] != Categories(options)[j]
  {
    if options != [] {
      var init := options[..|options| - 1];
      assert options == init + [options[|options| - 1]];
      CategoriesDistinct(init);
      CategoriesSnoc(init, options[|options| - 1]);
    }
  }

  /** A category has a non-empty group exactly when some option carries it. */
  lemma GroupNonEmptyIffSeen(options: seq<MktOptionInfo>, c: string)
    ensures |OfCategory(options, c)| > 0 <==> c in Categories(options)
  {
    CategoriesAreThoseSeen(options, c);
    if c in Categories(options) {
      var o :| o in options && o.category == c;
      OfCategoryMembers(options, c, o);
    } else if |OfCategory(options, c)| > 0 {
      OfCategoryMembers(options, c, OfCategory(options, c)[0]);
    }
  }

  /** The groups' sizes, summed over `cats`. */
  function GroupSizes(options: seq<MktOptionInfo>, cats: seq<string>): nat
  {
    if cats == [] then 0
    else GroupSizes(options, cats[..|cats| - 1]) + |OfCategory(options, cats[|cats| - 1])|
  }

  lemma {:induction false} GroupSizesAppendOther(options: seq<MktOptionInfo>, o: MktOptionInfo, cats: seq<string>)
    requires o.category !in cats
    ensures GroupSizes(options + [o], cats) == GroupSizes(options, cats)
  {
    if cats != [] {
      OfCategorySnoc(options, o, cats[|cats| - 1]);
      GroupSizesAppendOther(options, o, cats[..|cats| - 1]);
    }
  }

  lemma {:induction false} GroupSizesAppendMember(options: seq<MktOptionInfo>, o: MktOptionInfo, cats: seq<string>)
    requires o.category in cats
    requires forall i, j :: 0 <= i < j < |cats| ==> cats[i] != cats[j]
    ensures GroupSizes(options + [o], cats) == GroupSizes(options, cats) + 1
  {
    var init := cats[..|cats| - 1];
    OfCategorySnoc(options, o, cats[|cats| - 1]);
    if cats[|cats| - 1] == o.category {
      assert o.category !in init;
      GroupSizesAppendOther(options, o, init);
    } else {
      GroupSizesAppendMember(options, o, init);
    }
  }

  /** Grouping neither loses nor duplicates an option. */
  lemma {:induction false} GroupingKeepsCount(options: seq<MktOptionInfo>)
    ensures GroupSizes(options, Categories(options)) == |options|
  {
    if options != [] {
      var init := options[..|options| - 1];
      var last := options[|options| - 1];
      assert options == init + [last];
      GroupingKeepsCount(init);
      var earlier := Categories(init);
      CategoriesSnoc(init, last);
      if last.category in earlier {
        CategoriesDistinct(init);
        GroupSizesAppendMember(init, last, earlier);
      } else {
        GroupSizesAppendOther(init, last, earlier);
        GroupNonEmptyIffSeen(init, last.category);
        OfCategorySnoc(init, last, last.category);
        assert (earlier + [last.category])[..|earlier|] == earlier;
      }
    }
  }

  /**
   * Categories appear in order of first occurrence: the categories of any
   * prefix of the input are a prefix of the categories of the whole.
   */
  lemma {:induction false} CategoriesFirstSeenOrder(options: seq<MktOptionInfo>, n: nat)
    requires n <= |options|
    ensures Categories(options[..n]) <= Categories(options)
  {
    if n < |options| {
      var init := options[..|options| - 1];
      assert options[..n] == init[..n];
      CategoriesFirstSeenOrder(init, n);
    } else {
      assert options[..n] == options;
    }
  }
}
