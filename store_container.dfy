/** RtStoreContainer: the parent-most component that owns engines, stores and
    event buses. After its view initializes, and only when it was built with
    `logInfo`, it audits its own fields: every engine, store and bus must have
    been wired through the proper classes. */
module StoreContainer {
  import opened Wrappers

  /** What `instanceof` reveals about one field value, with the private flag
      the audit reads from it. */
  datatype FieldValue =
    | EngineField(constructedCorrectly: bool)
    | StoreField(initializedByAnRtStoreSourceEngine: bool)
    | CommonBusField(listenedByAnRtStoreContainer: bool)
    | CustomBusField(listenedByAnRtStoreContainer: bool)
    | PlainField

  /** One `[key, value]` pair of `Object.entries(this)`. */
  datatype Entry = Entry(key: string, value: FieldValue)

  datatype FieldKind = Engine | Store | CommonBus | CustomBus | Plain

  function KindOf(v: FieldValue): FieldKind
  {
    match v
    case EngineField(_) => Engine
    case StoreField(_) => Store
    case CommonBusField(_) => CommonBus
    case CustomBusField(_) => CustomBus
    case PlainField => Plain
  }

  /** A field passes the audit when its flag is `true`; other fields are not
      inspected. */
  predicate WiredCorrectly(v: FieldValue)
  {
    match v
    case EngineField(c) => c
    case StoreField(i) => i
    case CommonBusField(l) => l
    case CustomBusField(l) => l
    case PlainField => true
  }

  datatype Miswiring = EngineNotConstructed | StoreNotInitialized | BusListenedWrongly

  /** The error thrown for a mis-wired field, named by its key. */
  datatype AuditError = AuditError(key: string, problem: Miswiring)

  function Problem(v: FieldValue): Miswiring
    requires !WiredCorrectly(v)
  {
    match v
    case EngineField(_) => EngineNotConstructed
    case StoreField(_) => StoreNotInitialized
    case _ => BusListenedWrongly
  }

  /** The text after the field's key in each kind of audit error. */
  function ProblemText(p: Miswiring): string
  {
    match p
    case EngineNotConstructed =>
      " was not constructed correctly. Please provide the container component during construction."
    case StoreNotInitialized =>
      " was not initialized correctly. Please only initialize stores with an instance of an RtStoreSourceEngine."
    case BusListenedWrongly =>
      " is being listened to by something that shouldn't. Please only listen to event buses with an instance of an RtStoreContainer."
  }

  /** The message of the `Error` thrown for a mis-wired field: it opens with
      the field's key, and the rest tells which kind of wiring went wrong. */
  function AuditMessage(e: AuditError): (msg: string)
    ensures |msg| >= |e.key| && msg[..|e.key|] == e.key
    ensures msg[|e.key|..] == ProblemText(e.problem)
  {
    e.key + ProblemText(e.problem)
  }

  /** The four counters the audit reports. */
  datatype Counts = Counts(engines: nat, stores: nat, commonBuses: nat, customBuses: nat)

  /** The number of fields of the given kind. */
  function Count(entries: seq<Entry>, k: FieldKind): nat
  {
    if entries == [] then 0
    else (if KindOf(entries[0].value) == k then 1 else 0) + Count(entries[1..], k)
  }

  lemma {:induction false} CountAppend(entries: seq<Entry>, e: Entry, k: FieldKind)
    ensures Count(entries + [e], k) == Count(entries, k) + (if KindOf(e.value) == k then 1 else 0)
  {
    if entries != [] {
      assert (entries + [e])[1..] == entries[1..] + [e];
      CountAppend(entries[1..], e, k);
    }
  }

  /** Every field is counted under exactly one kind. */
  lemma {:induction false} CountsPartition(entries: seq<Entry>)
    ensures Count(entries, Engine) + Count(entries, Store) + Count(entries, CommonBus)
          + Count(entries, CustomBus) + Count(entries, Plain) == |entries|
  {
    if entries != [] {
      CountsPartition(entries[1..]);
    }
  }

  /** The position of the first mis-wired field, if any. */
  function FirstMiswired(entries: seq<Entry>): (r: Option<nat>)
    ensures r.None? <==> forall j :: 0 <= j < |entries| ==> WiredCorrectly(entries[j].value)
    ensures r.Some? ==> r.value < |entries| && !WiredCorrectly(entries[r.value].value)
    ensures r.Some? ==> forall j :: 0 <= j < r.value ==> WiredCorrectly(entries[j].value)
  {
    if entries == [] then None
    else if !WiredCorrectly(entries[0].value) then Some(0)
    else match FirstMiswired(entries[1..])
      case None => None
      case Some(i) => Some(i + 1)
  }

  /** What the audit of the given fields ends in: the error for the first
      mis-wired field, or the count of each kind. */
  function AuditSpec(entries: seq<Entry>): (r: Result<Counts, AuditError>)
    ensures r.Failure? ==> exists i :: 0 <= i < |entries| && entries[i].key == r.error.key && !WiredCorrectly(entries[i].value)
    ensures r.Success? ==>
      r.value.engines + r.value.stores + r.value.commonBuses + r.value.customBuses == |entries| - Count(entries, Plain)
  {
    CountsPartition(entries);
    match FirstMiswired(entries)
    case Some(i) => Failure(AuditError(entries[i].key, Problem(entries[i].value)))
    case None => Success(Counts(Count(entries, Engine), Count(entries, Store),
                                Count(entries, CommonBus), Count(entries, CustomBus)))
  }

  /** The `forEach` over the fields: it throws on the first mis-wired one and
      otherwise bumps the counter of each engine, store and bus it meets. */
  method Audit(entries: seq<Entry>) returns (r: Result<Counts, AuditError>)
    ensures r == AuditSpec(entries)
  {
    var engineCount, storeCount, commonEventBusCount, customEventBusCount := 0, 0, 0, 0;
    var i := 0;
    while i < |entries|
      invariant 0 <= i <= |entries|
      invariant forall j :: 0 <= j < i ==> WiredCorrectly(entries[j].value)
      invariant engineCount == Count(entries[..i], Engine)
      invariant storeCount == Count(entries[..i], Store)
      invariant commonEventBusCount == Count(entries[..i], CommonBus)
      invariant customEventBusCount == Count(entries[..i], CustomBus)
    {
      var e := entries[i];
      if !WiredCorrectly(e.value) {
        return Failure(AuditError(e.key, Problem(e.value)));
      }
      assert entries[..i + 1] == entries[..i] + [e];
      CountAppend(entries[..i], e, Engine);
      CountAppend(entries[..i], e, Store);
      CountAppend(entries[..i], e, CommonBus);
      CountAppend(entries[..i], e, CustomBus);
      match e.value {
        case EngineField(_) => engineCount := engineCount + 1;
        case StoreField(_) => storeCount := storeCount + 1;
        case CommonBusField(_) => commonEventBusCount := commonEventBusCount + 1;
        case CustomBusField(_) => customEventBusCount := customEventBusCount + 1;
        case PlainField =>
      }
      i := i + 1;
    }
    assert entries[..i] == entries;
    r := Success(Counts(engineCount, storeCount, commonEventBusCount, customEventBusCount));
  }

  /** The audit passes exactly when every field is wired correctly, and a
      failure names the first field that is not. */
  lemma AuditPassesIffAllWired(entries: seq<Entry>)
    ensures AuditSpec(entries).Success? <==> forall j :: 0 <= j < |entries| ==> WiredCorrectly(entries[j].value)
    ensures AuditSpec(entries).Failure? ==>
      exists i :: 0 <= i < |entries| && !WiredCorrectly(entries[i].value)
        && (forall j :: 0 <= j < i ==> WiredCorrectly(entries[j].value))
        && AuditSpec(entries).error == AuditError(entries[i].key, Problem(entries[i].value))
  {
  }

  /** A field that is neither engine, store nor bus changes nothing about the
      audit, wherever it appears. */
  lemma PlainFieldIgnored(before: seq<Entry>, key: string, after: seq<Entry>)
    ensures AuditSpec(before + [Entry(key, PlainField)] + after) == AuditSpec(before + after)
  {
    var withPlain := before + [Entry(key, PlainField)] + after;
    var without := before + after;
    CountWithPlain(before, key, after, Engine);
    CountWithPlain(before, key, after, Store);
    CountWithPlain(before, key, after, CommonBus);
    CountWithPlain(before, key, after, CustomBus);
    match FirstMiswired(without)
    case None =>
      assert forall j :: 0 <= j < |withPlain| ==> WiredCorrectly(withPlain[j].value) by {
        forall j | 0 <= j < |withPlain|
          ensures WiredCorrectly(withPlain[j].value)
        {
          if j > |before| {
            assert withPlain[j] == without[j - 1];
          } else if j < |before| {
            assert withPlain[j] == without[j];
          }
        }
      }
    case Some(i) =>
      var i' := if i < |before| then i else i + 1;
      assert withPlain[i'] == without[i];
      assert forall j :: 0 <= j < i' ==> WiredCorrectly(withPlain[j].value) by {
        forall j | 0 <= j < i'
          ensures WiredCorrectly(withPlain[j].value)
        {
          if j > |before| {
            assert withPlain[j] == without[j - 1];
          } else if j < |before| {
            assert withPlain[j] == without[j];
          }
        }
      }
      assert FirstMiswired(withPlain) == Some(i');
  }

  lemma {:induction false} CountWithPlain(before: seq<Entry>, key: string, after: seq<Entry>, k: FieldKind)
    requires k != Plain
    ensures Count(before + [Entry(key, PlainField)] + after, k) == Count(before + after, k)
  {
    if before == [] {
      assert before + [Entry(key, PlainField)] + after == [Entry(key, PlainField)] + after;
      assert ([Entry(key, PlainField)] + after)[1..] == after;
      assert before + after == after;
    } else {
      assert (before + [Entry(key, PlainField)] + after)[1..] == before[1..] + [Entry(key, PlainField)] + after;
      assert (before + after)[1..] == before[1..] + after;
      CountWithPlain(before[1..], key, after, k);
    }
  }

  /** What `ngAfterViewInit` ends in. */
  datatype ViewInitOutcome =
    | NotAudited
    | AuditPassed(counts: Counts)
    | AuditFailed(error: AuditError)

  function ViewInitSpec(logInfo: bool, fields: seq<Entry>): (o: ViewInitOutcome)
    ensures !logInfo ==> o == NotAudited
    ensures logInfo && AuditSpec(fields).Failure? ==> o == AuditFailed(AuditSpec(fields).error)
    ensures logInfo && AuditSpec(fields).Success? ==> o == AuditPassed(AuditSpec(fields).value)
  {
    if !logInfo then NotAudited
    else match AuditSpec(fields)
      case Failure(e) => AuditFailed(e)
      case Success(c) => AuditPassed(c)
  }

  class RtStoreContainer {
    const name: string
    const logInfo: bool
    /** How many times the `rtAfterViewInit` hook has run. */
    var rtAfterViewInitCalls: nat

    constructor(name: string, logInfo: bool)
      ensures this.name == name && this.logInfo == logInfo && rtAfterViewInitCalls == 0
    {
      this.name := name;
      this.logInfo := logInfo;
      rtAfterViewInitCalls := 0;
    }

    /** `ngAfterViewInit()`, given the container's fields: without `logInfo`
        no field is inspected; a failing audit throws before the hook, so
        `rtAfterViewInit` runs once exactly when the audit did not fail. */
    method NgAfterViewInit(fields: seq<Entry>) returns (o: ViewInitOutcome)
      modifies this`rtAfterViewInitCalls
      ensures o == ViewInitSpec(logInfo, fields)
      ensures rtAfterViewInitCalls == old(rtAfterViewInitCalls) + (if o.AuditFailed? then 0 else 1)
    {
      if logInfo {
        var r := Audit(fields);
        if r.Failure? {
          return AuditFailed(r.error);
        }
        o := AuditPassed(r.value);
      } else {
        o := NotAudited;
      }
      rtAfterViewInitCalls := rtAfterViewInitCalls + 1;
    }
  }
}
