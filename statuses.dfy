/**
 * The order-status dictionary and its decoder (`STATUS_CODES`,
 * `decodeStatus`). One order state reaches the front end in up to three
 * spellings: the long API name (`DELIVERED`), a legacy two-letter code
 * (`DL`) and a lower-case front-end name (`delivered`).
 */
module Statuses {
  import opened Wrappers
  import opened Text

  /** The badge variant a status is drawn with. */
  datatype Color = Default | Secondary | Destructive | Outline

  datatype StatusInfo = StatusInfo(name: string, progress: int, color: Color)

  /** The order states the dictionary knows about. */
  datatype OrderState =
    | Booked | Ordered | Confirmed | InProduction | VinAssigned
    | InTransit | Scheduled | Delivered | Cancelled

  /** The record every spelling of a state decodes to. */
  function Info(s: OrderState): StatusInfo
  {
    match s
    case Booked => StatusInfo("Reservado", 10, Outline)
    case Ordered => StatusInfo("Ordenado", 15, Outline)
    case Confirmed => StatusInfo("Confirmado", 25, Secondary)
    case InProduction => StatusInfo("En Producción", 50, Secondary)
    case VinAssigned => StatusInfo("VIN Asignado", 65, Secondary)
    case InTransit => StatusInfo("En Tránsito", 80, Secondary)
    case Scheduled => StatusInfo("Programado", 90, Default)
    case Delivered => StatusInfo("Entregado", 100, Default)
    case Cancelled => StatusInfo("Cancelado", 0, Destructive)
  }

  /** The spellings of each state: long form, legacy code (none for in-transit), lower case. */
  function Aliases(s: OrderState): seq<string>
  {
    match s
    case Booked => ["BOOKED", "RN", "reserved"]
    case Ordered => ["ORDERED", "OD", "ordered"]
    case Confirmed => ["CONFIRMED", "CF", "confirmed"]
    case InProduction => ["IN_PRODUCTION", "IN", "production"]
    case VinAssigned => ["VIN_ASSIGNED", "VP", "vin_assigned"]
    case InTransit => ["IN_TRANSIT", "in_transit"]
    case Scheduled => ["SCHEDULED", "FS", "scheduled"]
    case Delivered => ["DELIVERED", "DL", "delivered"]
    case Cancelled => ["CANCELLED", "CN", "cancelled"]
  }

  /** `STATUS_CODES`, entry by entry as the source lists them. */
  const StatusCodes: map<string, StatusInfo> := map[
    // long form (API)
    "BOOKED" := StatusInfo("Reservado", 10, Outline),
    "ORDERED" := StatusInfo("Ordenado", 15, Outline),
    "CONFIRMED" := StatusInfo("Confirmado", 25, Secondary),
    "IN_PRODUCTION" := StatusInfo("En Producción", 50, Secondary),
    "VIN_ASSIGNED" := StatusInfo("VIN Asignado", 65, Secondary),
    "IN_TRANSIT" := StatusInfo("En Tránsito", 80, Secondary),
    "SCHEDULED" := StatusInfo("Programado", 90, Default),
    "DELIVERED" := StatusInfo("Entregado", 100, Default),
    "CANCELLED" := StatusInfo("Cancelado", 0, Destructive),
    // legacy two-letter codes
    "RN" := StatusInfo("Reservado", 10, Outline),
    "OD" := StatusInfo("Ordenado", 15, Outline),
    "CF" := StatusInfo("Confirmado", 25, Secondary),
    "IN" := StatusInfo("En Producción", 50, Secondary),
    "VP" := StatusInfo("VIN Asignado", 65, Secondary),
    "FS" := StatusInfo("Programado", 90, Default),
    "DL" := StatusInfo("Entregado", 100, Default),
    "CN" := StatusInfo("Cancelado", 0, Destructive),
    // front-end lower case
    "reserved" := StatusInfo("Reservado", 10, Outline),
    "ordered" := StatusInfo("Ordenado", 15, Outline),
    "confirmed" := StatusInfo("Confirmado", 25, Secondary),
    "production" := StatusInfo("En Producción", 50, Secondary),
    "vin_assigned" := StatusInfo("VIN Asignado", 65, Secondary),
    "in_transit" := StatusInfo("En Tránsito", 80, Secondary),
    "scheduled" := StatusInfo("Programado", 90, Default),
    "delivered" := StatusInfo("Entregado", 100, Default),
    "cancelled" := StatusInfo("Cancelado", 0, Destructive)
  ]

  const UnknownStatus := StatusInfo("Desconocido", 0, Outline)

  /** Some spelling the decoder tries (as given, upper-cased, lower-cased) is a key. */
  predicate Known(code: string)
  {
    code in StatusCodes || Upper(code) in StatusCodes || Lower(code) in StatusCodes
  }

  /** Every entry of the table has a progress between 0 and 100. */
  lemma TableProgressInRange()
    ensures forall k :: k in StatusCodes ==> 0 <= StatusCodes[k].progress <= 100
  {
  }

  /**
   * `decodeStatus`: the exact key, else the upper-cased key, else the
   * lower-cased key; an unknown code is shown verbatim at progress 0.
   */
  function DecodeStatus(code: Option<string>): (r: StatusInfo)
    ensures 0 <= r.progress <= 100
    ensures Absent(code) ==> r == UnknownStatus
    ensures !Absent(code) && !Known(code.value) ==> r == StatusInfo(code.value, 0, Outline)
    ensures !Absent(code) ==> (Known(code.value) <==> r in StatusCodes.Values)
  {
    TableProgressInRange();
    if Absent(code) then UnknownStatus
    else
      var c := code.value;
      if c in StatusCodes then StatusCodes[c]
      else if Upper(c) in StatusCodes then StatusCodes[Upper(c)]
      else if Lower(c) in StatusCodes then StatusCodes[Lower(c)]
      else StatusInfo(c, 0, Outline)
  }

  // ------------------------------------------------- case-insensitive view

  /**
   * The dictionary read case-insensitively: every key lower-cased. Keys that
   * differ only in case (`IN_TRANSIT`, `in_transit`) carry the same record,
   * so this map is well defined (FoldedAgreesWithTable).
   */
  ghost const FoldedCodes: map<string, StatusInfo> := map[
    "booked" := Info(Booked), "rn" := Info(Booked), "reserved" := Info(Booked),
    "ordered" := Info(Ordered), "od" := Info(Ordered),
    "confirmed" := Info(Confirmed), "cf" := Info(Confirmed),
    "in_production" := Info(InProduction), "in" := Info(InProduction), "production" := Info(InProduction),
    "vin_assigned" := Info(VinAssigned), "vp" := Info(VinAssigned),
    "in_transit" := Info(InTransit),
    "scheduled" := Info(Scheduled), "fs" := Info(Scheduled),
    "delivered" := Info(Delivered), "dl" := Info(Delivered),
    "cancelled" := Info(Cancelled), "cn" := Info(Cancelled)
  ]

  // Two lemmas per key: the key lower-cased, and its folded entry. They are
  // kept this small on purpose: a lemma that states both facts makes the
  // solver evaluate `Lower` on a literal and look up the 26-entry table in
  // the same proof, which costs several times as much and comes close to
  // the resource limit on some solver seeds.

  lemma FoldsBooked()
    ensures Lower("BOOKED") == "booked"
  {
    assert forall i | 0 <= i < 6 :: Lower("BOOKED")[i] == "booked"[i];
  }

  lemma FoldsBookedEntry()
    ensures "booked" in FoldedCodes && FoldedCodes["booked"] == StatusCodes["BOOKED"]
  {
  }

  lemma FoldsOrdered()
    ensures Lower("ORDERED") == "ordered"
  {
    assert forall i | 0 <= i < 7 :: Lower("ORDERED")[i] == "ordered"[i];
  }

  lemma FoldsOrderedEntry()
    ensures "ordered" in FoldedCodes && FoldedCodes["ordered"] == StatusCodes["ORDERED"]
  {
  }

  lemma FoldsConfirmed()
    ensures Lower("CONFIRMED") == "confirmed"
  {
    assert forall i | 0 <= i < 9 :: Lower("CONFIRMED")[i] == "confirmed"[i];
  }

  lemma FoldsConfirmedEntry()
    ensures "confirmed" in FoldedCodes && FoldedCodes["confirmed"] == StatusCodes["CONFIRMED"]
  {
  }

  lemma FoldsInProduction()
    ensures Lower("IN_PRODUCTION") == "in_production"
  {
    assert forall i | 0 <= i < 13 :: Lower("IN_PRODUCTION")[i] == "in_production"[i];
  }

  lemma FoldsInProductionEntry()
    ensures "in_production" in FoldedCodes && FoldedCodes["in_production"] == StatusCodes["IN_PRODUCTION"]
  {
  }

  lemma FoldsVinAssigned()
    ensures Lower("VIN_ASSIGNED") == "vin_assigned"
  {
    assert forall i | 0 <= i < 12 :: Lower("VIN_ASSIGNED")[i] == "vin_assigned"[i];
  }

  lemma FoldsVinAssignedEntry()
    ensures "vin_assigned" in FoldedCodes && FoldedCodes["vin_assigned"] == StatusCodes["VIN_ASSIGNED"]
  {
  }

  lemma FoldsInTransit()
    ensures Lower("IN_TRANSIT") == "in_transit"
  {
    assert forall i | 0 <= i < 10 :: Lower("IN_TRANSIT")[i] == "in_transit"[i];
  }

  lemma FoldsInTransitEntry()
    ensures "in_transit" in FoldedCodes && FoldedCodes["in_transit"] == StatusCodes["IN_TRANSIT"]
  {
  }

  lemma FoldsScheduled()
    ensures Lower("SCHEDULED") == "scheduled"
  {
    assert forall i | 0 <= i < 9 :: Lower("SCHEDULED")[i] == "scheduled"[i];
  }

  lemma FoldsScheduledEntry()
    ensures "scheduled" in FoldedCodes && FoldedCodes["scheduled"] == StatusCodes["SCHEDULED"]
  {
  }

  lemma FoldsDelivered()
    ensures Lower("DELIVERED") == "delivered"
  {
    assert forall i | 0 <= i < 9 :: Lower("DELIVERED")[i] == "delivered"[i];
  }

  lemma FoldsDeliveredEntry()
    ensures "delivered" in FoldedCodes && FoldedCodes["delivered"] == StatusCodes["DELIVERED"]
  {
  }

  lemma FoldsCancelled()
    ensures Lower("CANCELLED") == "cancelled"
  {
    assert forall i | 0 <= i < 9 :: Lower("CANCELLED")[i] == "cancelled"[i];
  }

  lemma FoldsCancelledEntry()
    ensures "cancelled" in FoldedCodes && FoldedCodes["cancelled"] == StatusCodes["CANCELLED"]
  {
  }

  lemma FoldsRn()
    ensures Lower("RN") == "rn"
  {
    assert forall i | 0 <= i < 2 :: Lower("RN")[i] == "rn"[i];
  }

  lemma FoldsRnEntry()
    ensures "rn" in FoldedCodes && FoldedCodes["rn"] == StatusCodes["RN"]
  {
  }

  lemma FoldsOd()
    ensures Lower("OD") == "od"
  {
    assert forall i | 0 <= i < 2 :: Lower("OD")[i] == "od"[i];
  }

  lemma FoldsOdEntry()
    ensures "od" in FoldedCodes && FoldedCodes["od"] == StatusCodes["OD"]
  {
  }

  lemma FoldsCf()
    ensures Lower("CF") == "cf"
  {
    assert forall i | 0 <= i < 2 :: Lower("CF")[i] == "cf"[i];
  }

  lemma FoldsCfEntry()
    ensures "cf" in FoldedCodes && FoldedCodes["cf"] == StatusCodes["CF"]
  {
  }

  lemma FoldsIn()
    ensures Lower("IN") == "in"
  {
    assert forall i | 0 <= i < 2 :: Lower("IN")[i] == "in"[i];
  }

  lemma FoldsInEntry()
    ensures "in" in FoldedCodes && FoldedCodes["in"] == StatusCodes["IN"]
  {
  }

  lemma FoldsVp()
    ensures Lower("VP") == "vp"
  {
    assert forall i | 0 <= i < 2 :: Lower("VP")[i] == "vp"[i];
  }

  lemma FoldsVpEntry()
    ensures "vp" in FoldedCodes && FoldedCodes["vp"] == StatusCodes["VP"]
  {
  }

  lemma FoldsFs()
    ensures Lower("FS") == "fs"
  {
    assert forall i | 0 <= i < 2 :: Lower("FS")[i] == "fs"[i];
  }

  lemma FoldsFsEntry()
    ensures "fs" in FoldedCodes && FoldedCodes["fs"] == StatusCodes["FS"]
  {
  }

  lemma FoldsDl()
    ensures Lower("DL") == "dl"
  {
    assert forall i | 0 <= i < 2 :: Lower("DL")[i] == "dl"[i];
  }

  lemma FoldsDlEntry()
    ensures "dl" in FoldedCodes && FoldedCodes["dl"] == StatusCodes["DL"]
  {
  }

  lemma FoldsCn()
    ensures Lower("CN") == "cn"
  {
    assert forall i | 0 <= i < 2 :: Lower("CN")[i] == "cn"[i];
  }

  lemma FoldsCnEntry()
    ensures "cn" in FoldedCodes && FoldedCodes["cn"] == StatusCodes["CN"]
  {
  }

  lemma FoldsReservedLower()
    ensures Lower("reserved") == "reserved"
  {
    assert forall i | 0 <= i < 8 :: Lower("reserved")[i] == "reserved"[i];
  }

  lemma FoldsReservedLowerEntry()
    ensures "reserved" in FoldedCodes && FoldedCodes["reserved"] == StatusCodes["reserved"]
  {
  }

  lemma FoldsOrderedLower()
    ensures Lower("ordered") == "ordered"
  {
    assert forall i | 0 <= i < 7 :: Lower("ordered")[i] == "ordered"[i];
  }

  lemma FoldsOrderedLowerEntry()
    ensures "ordered" in FoldedCodes && FoldedCodes["ordered"] == StatusCodes["ordered"]
  {
  }

  lemma FoldsConfirmedLower()
    ensures Lower("confirmed") == "confirmed"
  {
    assert forall i | 0 <= i < 9 :: Lower("confirmed")[i] == "confirmed"[i];
  }

  lemma FoldsConfirmedLowerEntry()
    ensures "confirmed" in FoldedCodes && FoldedCodes["confirmed"] == StatusCodes["confirmed"]
  {
  }

  lemma FoldsProductionLower()
    ensures Lower("production") == "production"
  {
    assert forall i | 0 <= i < 10 :: Lower("production")[i] == "production"[i];
  }

  lemma FoldsProductionLowerEntry()
    ensures "production" in FoldedCodes && FoldedCodes["production"] == StatusCodes["production"]
  {
  }

  lemma FoldsVinAssignedLower()
    ensures Lower("vin_assigned") == "vin_assigned"
  {
    assert forall i | 0 <= i < 12 :: Lower("vin_assigned")[i] == "vin_assigned"[i];
  }

  lemma FoldsVinAssignedLowerEntry()
    ensures "vin_assigned" in FoldedCodes && FoldedCodes["vin_assigned"] == StatusCodes["vin_assigned"]
  {
  }

  lemma FoldsInTransitLower()
    ensures Lower("in_transit") == "in_transit"
  {
    assert forall i | 0 <= i < 10 :: Lower("in_transit")[i] == "in_transit"[i];
  }

  lemma FoldsInTransitLowerEntry()
    ensures "in_transit" in FoldedCodes && FoldedCodes["in_transit"] == StatusCodes["in_transit"]
  {
  }

  lemma FoldsScheduledLower()
    ensures Lower("scheduled") == "scheduled"
  {
    assert forall i | 0 <= i < 9 :: Lower("scheduled")[i] == "scheduled"[i];
  }

  lemma FoldsScheduledLowerEntry()
    ensures "scheduled" in FoldedCodes && FoldedCodes["scheduled"] == StatusCodes["scheduled"]
  {
  }

  lemma FoldsDeliveredLower()
    ensures Lower("delivered") == "delivered"
  {
    assert forall i | 0 <= i < 9 :: Lower("delivered")[i] == "delivered"[i];
  }

  lemma FoldsDeliveredLowerEntry()
    ensures "delivered" in FoldedCodes && FoldedCodes["delivered"] == StatusCodes["delivered"]
  {
  }

  lemma FoldsCancelledLower()
    ensures Lower("cancelled") == "cancelled"
  {
    assert forall i | 0 <= i < 9 :: Lower("cancelled")[i] == "cancelled"[i];
  }

  lemma FoldsCancelledLowerEntry()
    ensures "cancelled" in FoldedCodes && FoldedCodes["cancelled"] == StatusCodes["cancelled"]
  {
  }

  /** Every key of the table, lower-cased, finds its own record in the folded view. */
  lemma FoldedAgreesWithTable(k: string)
    requires k in StatusCodes
    ensures Lower(k) in FoldedCodes && FoldedCodes[Lower(k)] == StatusCodes[k]
  {
    if k == "BOOKED" { FoldsBooked(); FoldsBookedEntry(); }
    else if k == "ORDERED" { FoldsOrdered(); FoldsOrderedEntry(); }
    else if k == "CONFIRMED" { FoldsConfirmed(); FoldsConfirmedEntry(); }
    else if k == "IN_PRODUCTION" { FoldsInProduction(); FoldsInProductionEntry(); }
    else if k == "VIN_ASSIGNED" { FoldsVinAssigned(); FoldsVinAssignedEntry(); }
    else if k == "IN_TRANSIT" { FoldsInTransit(); FoldsInTransitEntry(); }
    else if k == "SCHEDULED" { FoldsScheduled(); FoldsScheduledEntry(); }
    else if k == "DELIVERED" { FoldsDelivered(); FoldsDeliveredEntry(); }
    else if k == "CANCELLED" { FoldsCancelled(); FoldsCancelledEntry(); }
    else if k == "RN" { FoldsRn(); FoldsRnEntry(); }
    else if k == "OD" { FoldsOd(); FoldsOdEntry(); }
    else if k == "CF" { FoldsCf(); FoldsCfEntry(); }
    else if k == "IN" { FoldsIn(); FoldsInEntry(); }
    else if k == "VP" { FoldsVp(); FoldsVpEntry(); }
    else if k == "FS" { FoldsFs(); FoldsFsEntry(); }
    else if k == "DL" { FoldsDl(); FoldsDlEntry(); }
    else if k == "CN" { FoldsCn(); FoldsCnEntry(); }
    else if k == "reserved" { FoldsReservedLower(); FoldsReservedLowerEntry(); }
    else if k == "ordered" { FoldsOrderedLower(); FoldsOrderedLowerEntry(); }
    else if k == "confirmed" { FoldsConfirmedLower(); FoldsConfirmedLowerEntry(); }
    else if k == "production" { FoldsProductionLower(); FoldsProductionLowerEntry(); }
    else if k == "vin_assigned" { FoldsVinAssignedLower(); FoldsVinAssignedLowerEntry(); }
    else if k == "in_transit" { FoldsInTransitLower(); FoldsInTransitLowerEntry(); }
    else if k == "scheduled" { FoldsScheduledLower(); FoldsScheduledLowerEntry(); }
    else if k == "delivered" { FoldsDeliveredLower(); FoldsDeliveredLowerEntry(); }
    else { assert k == "cancelled"; FoldsCancelledLower(); FoldsCancelledLowerEntry(); }
  }

  /** The lowered long forms that are not keys themselves upper-case back to a key. */
  lemma LongFoldedKeysReachable(f: string)
    requires f in {"booked", "in_production"}
    ensures Upper(f) in StatusCodes
  {
    if f == "booked" {
      assert Upper("booked") == "BOOKED" by {
        assert forall i | 0 <= i < 6 :: Upper("booked")[i] == "BOOKED"[i];
      }
    }
    else {
      assert f == "in_production";
      assert Upper("in_production") == "IN_PRODUCTION" by {
        assert forall i | 0 <= i < 13 :: Upper("in_production")[i] == "IN_PRODUCTION"[i];
      }
    }
  }

  /** A two-letter code upper-cases letter by letter. */
  lemma UpperOfPair(f: string)
    requires |f| == 2
    ensures Upper(f) == [UpperChar(f[0]), UpperChar(f[1])]
  {
  }

  /** The lowered legacy codes upper-case back to a key. */
  lemma LegacyKeysReachable(f: string)
    requires f in {"rn", "od", "cf", "in", "vp", "fs", "dl", "cn"}
    ensures Upper(f) in StatusCodes
  {
    UpperOfPair(f);
  }

  /**
   * Every folded key is reached by the decoder: it is itself a key (a
   * lower-case spelling) or its upper-cased form is.
   */
  lemma FoldedKeyReachable(f: string)
    requires f in FoldedCodes
    ensures f in StatusCodes || Upper(f) in StatusCodes
  {
    if f in {"booked", "in_production"} {
      LongFoldedKeysReachable(f);
    } else if f in {"rn", "od", "cf", "in", "vp", "fs", "dl", "cn"} {
      LegacyKeysReachable(f);
    }
  }

  /**
   * What `decodeStatus` computes, stated without its resolution order: a
   * non-empty code decodes to the record of its case-insensitive match in
   * the dictionary, and to the verbatim fallback when there is none. The
   * order exact, upper, lower never changes the answer.
   */
  lemma DecodeStatusIsCaseInsensitive(c: string)
    requires c != ""
    ensures DecodeStatus(Some(c))
         == if Lower(c) in FoldedCodes then FoldedCodes[Lower(c)] else StatusInfo(c, 0, Outline)
  {
    UpperOfLower(c);
    LowerIdempotent(c);
    if c in StatusCodes {
      FoldedAgreesWithTable(c);
    } else if Upper(c) in StatusCodes {
      FoldedAgreesWithTable(Upper(c));
    } else if Lower(c) in StatusCodes {
      FoldedAgreesWithTable(Lower(c));
    } else if Lower(c) in FoldedCodes {
      FoldedKeyReachable(Lower(c));
      assert false;
    }
  }

  /** A code is known exactly when it matches a key up to case. */
  lemma KnownIffFolded(c: string)
    requires c != ""
    ensures Known(c) <==> Lower(c) in FoldedCodes
  {
    DecodeStatusIsCaseInsensitive(c);
    if Lower(c) in FoldedCodes {
      assert FoldedCodes[Lower(c)] in StatusCodes.Values;
    }
  }

  /** Two spellings that differ only in case decode alike, once either is known. */
  lemma CaseVariantsDecodeAlike(c1: string, c2: string)
    requires c1 != "" && Known(c1) && Lower(c1) == Lower(c2)
    ensures DecodeStatus(Some(c1)) == DecodeStatus(Some(c2))
  {
    KnownIffFolded(c1);
    DecodeStatusIsCaseInsensitive(c1);
    DecodeStatusIsCaseInsensitive(c2);
  }

  // ------------------------------------------------------------- aliases

  // One lemma per state: each of its spellings is a key holding its record.

  lemma BookedAliases()
    ensures forall a :: a in Aliases(Booked) ==> DecodeStatus(Some(a)) == Info(Booked)
  {
  }

  lemma OrderedAliases()
    ensures forall a :: a in Aliases(Ordered) ==> DecodeStatus(Some(a)) == Info(Ordered)
  {
  }

  lemma ConfirmedAliases()
    ensures forall a :: a in Aliases(Confirmed) ==> DecodeStatus(Some(a)) == Info(Confirmed)
  {
  }

  lemma InProductionAliases()
    ensures forall a :: a in Aliases(InProduction) ==> DecodeStatus(Some(a)) == Info(InProduction)
  {
  }

  lemma VinAssignedAliases()
    ensures forall a :: a in Aliases(VinAssigned) ==> DecodeStatus(Some(a)) == Info(VinAssigned)
  {
  }

  lemma InTransitAliases()
    ensures forall a :: a in Aliases(InTransit) ==> DecodeStatus(Some(a)) == Info(InTransit)
  {
  }

  lemma ScheduledAliases()
    ensures forall a :: a in Aliases(Scheduled) ==> DecodeStatus(Some(a)) == Info(Scheduled)
  {
  }

  lemma DeliveredAliases()
    ensures forall a :: a in Aliases(Delivered) ==> DecodeStatus(Some(a)) == Info(Delivered)
  {
  }

  lemma CancelledAliases()
    ensures forall a :: a in Aliases(Cancelled) ==> DecodeStatus(Some(a)) == Info(Cancelled)
  {
  }

  /**
   * Every spelling of a state decodes to that state's one record, so the
   * long, legacy and lower-case families agree on name, progress and color.
   */
  lemma AliasesDecodeAlike(s: OrderState, a: string)
    requires a in Aliases(s)
    ensures DecodeStatus(Some(a)) == Info(s)
  {
    match s
    case Booked => BookedAliases();
    case Ordered => OrderedAliases();
    case Confirmed => ConfirmedAliases();
    case InProduction => InProductionAliases();
    case VinAssigned => VinAssignedAliases();
    case InTransit => InTransitAliases();
    case Scheduled => ScheduledAliases();
    case Delivered => DeliveredAliases();
    case Cancelled => CancelledAliases();
  }

  /** `CANCELLED`, `CN` and `cancelled` all stop the order at 0 in red. */
  lemma CancelledIsDestructiveZero(a: string)
    requires a in Aliases(Cancelled)
    ensures DecodeStatus(Some(a)).progress == 0 && DecodeStatus(Some(a)).color == Destructive
  {
    CancelledAliases();
  }

  // Ground facts for the mixed-case examples, one lookup at a time.

  lemma FoldedDeliveredEntry()
    ensures "delivered" in FoldedCodes && FoldedCodes["delivered"] == Info(Delivered)
  {
  }

  lemma FoldedInEntry()
    ensures "in" in FoldedCodes && FoldedCodes["in"] == Info(InProduction)
  {
  }

  lemma FoldedProductionEntry()
    ensures "production" in FoldedCodes && FoldedCodes["production"] == Info(InProduction)
  {
  }

  /** `Delivered` is no key; its upper-cased form `DELIVERED` is. */
  lemma MixedCaseDelivered()
    ensures "Delivered" !in StatusCodes && Upper("Delivered") in StatusCodes
    ensures DecodeStatus(Some("Delivered")) == Info(Delivered)
    ensures DecodeStatus(Some("Delivered")).progress == 100
  {
    assert Upper("Delivered") == "DELIVERED" by {
      assert forall i | 0 <= i < 9 :: Upper("Delivered")[i] == "DELIVERED"[i];
    }
    assert Lower("Delivered") == "delivered" by {
      assert forall i | 0 <= i < 9 :: Lower("Delivered")[i] == "delivered"[i];
    }
    FoldedDeliveredEntry();
    DecodeStatusIsCaseInsensitive("Delivered");
  }

  /** `in` is no key; its upper-cased form, the legacy code `IN`, is. */
  lemma LowerCaseLegacyIn()
    ensures "in" !in StatusCodes && Upper("in") == "IN" && "IN" in StatusCodes
    ensures DecodeStatus(Some("in")) == Info(InProduction)
    ensures DecodeStatus(Some("in")).progress == 50
  {
    UpperOfPair("in");
    assert Lower("in") == "in" by {
      assert forall i | 0 <= i < 2 :: Lower("in")[i] == "in"[i];
    }
    FoldedInEntry();
    DecodeStatusIsCaseInsensitive("in");
  }

  /**
   * `Production` upper-cases to `PRODUCTION`, which is no key; only the
   * third try, the lower-cased `production`, finds it.
   */
  lemma MixedCaseProduction()
    ensures "Production" !in StatusCodes && Upper("Production") !in StatusCodes
    ensures Lower("Production") in StatusCodes
    ensures DecodeStatus(Some("Production")) == Info(InProduction)
    ensures DecodeStatus(Some("Production")).progress == 50
  {
    assert Upper("Production") == "PRODUCTION" by {
      assert forall i | 0 <= i < 10 :: Upper("Production")[i] == "PRODUCTION"[i];
    }
    assert Lower("Production") == "production" by {
      assert forall i | 0 <= i < 10 :: Lower("Production")[i] == "production"[i];
    }
    FoldedProductionEntry();
    DecodeStatusIsCaseInsensitive("Production");
  }
}
