/**
 * The ingest ramp script (loadtest/ingest.js): a per-VU counter, bumped on every iteration,
 * picks the type, service, environment, chain and run of the next service event.
 * The HTTP post, the latency trend and the sleep are left out; `RunIngest` returns the payload
 * it would post.
 */
module LoadTestIngest {
  import opened Wrappers
  import opened GoStrings
  import opened CDEvents
  import opened LoadTestCommon

  /** The custom-type switch: the variable (default "false"), lower-cased, is exactly "true". */
  function IncludeCustomTypes(envValue: Option<String>): (r: bool)
    ensures envValue.None? || envValue.value == "" ==> !r
    ensures r <==> ToLower(OrElse(envValue, "false")) == "true"
  {
    var v := OrElse(envValue, "false");
    if v == "false" then
      FalseNotTrue();
      false
    else ToLower(v) == "true"
  }

  lemma FalseNotTrue()
    ensures ToLower("false") != "true"
  {
    assert ToLower("false")[0] == 'f';
  }

  /** The short (or, for the custom case, versioned) type chosen for a selector. */
  function IngestShortType(selector: int, includeCustom: bool): String
  {
    if selector == 9 then (if includeCustom then PipelineRunStarted else "service.deployed")
    else if selector == 8 then "service.published"
    else if selector == 7 then "service.rolledback"
    else "service.deployed"
  }

  function ChainId(sequence: nat): String
  {
    "lt-chain-" + IntToString(sequence / 3)
  }

  /** The parameters one iteration passes to buildServiceEvent for the (already bumped) sequence. */
  function IngestParams(sequence: nat, includeCustom: bool): (p: Params)
    ensures p.sequence == Some(sequence) && p.chainId == Some(ChainId(sequence))
    ensures p.pipelineRun == Some("lt-run-" + IntToString(sequence))
    ensures p.service == Some(if sequence % 10 % 2 == 0 then "orders" else "billing")
    ensures p.environment == Some(if sequence % 10 % 3 == 0 then "production" else "staging")
  {
    var selector := sequence % 10;
    Params(Some(IngestShortType(selector, includeCustom)),
           Some(if selector % 2 == 0 then "orders" else "billing"),
           Some(if selector % 3 == 0 then "production" else "staging"),
           Some(sequence), Some(ChainId(sequence)), None, None,
           Some("lt-run-" + IntToString(sequence)), None, None)
  }

  /** The event of one iteration. */
  function IngestEvent(sequence: nat, includeCustom: bool, nowIso: String, nowMillis: int): LoadEvent
  {
    BuildServiceEvent(IngestParams(sequence, includeCustom), nowIso, nowMillis)
  }

  /** The type rule: 7 rolls back, 8 publishes, 9 starts a pipeline run when custom types are on, the rest deploy. */
  lemma IngestEventType(sequence: nat, includeCustom: bool, nowIso: String, nowMillis: int)
    ensures var t := IngestEvent(sequence, includeCustom, nowIso, nowMillis).eventType;
            (sequence % 10 == 7 ==> t == ServiceRolledback) &&
            (sequence % 10 == 8 ==> t == ServicePublished) &&
            (sequence % 10 == 9 ==> t == (if includeCustom then PipelineRunStarted else ServiceDeployed)) &&
            (sequence % 10 < 7 ==> t == ServiceDeployed)
  {
    var selector := sequence % 10;
    var short := IngestShortType(selector, includeCustom);
    assert IngestParams(sequence, includeCustom).eventType == Some(short);
    if short == PipelineRunStarted {
      PipelineRunStartedNotShort();
    }
  }

  lemma PipelineRunStartedNotShort()
    ensures PipelineRunStarted !in VersionedNames
  {
    ShortNamesKeys();
    assert PipelineRunStarted[0] == 'd';
  }

  /** Only a pipeline run is ever sent with a custom type, and only when they are switched on. */
  lemma IngestEventDeliveryType(sequence: nat, includeCustom: bool, nowIso: String, nowMillis: int)
    ensures var t := IngestEvent(sequence, includeCustom, nowIso, nowMillis).eventType;
            t in DeliveryTypes || (includeCustom && sequence % 10 == 9 && t == PipelineRunStarted)
  {
    IngestEventType(sequence, includeCustom, nowIso, nowMillis);
  }

  /** A positive sequence is its own id suffix: the event is "lt-<service>-<sequence>" and chained. */
  lemma IngestEventIdentity(sequence: nat, includeCustom: bool, nowIso: String, nowMillis: int)
    requires sequence > 0
    ensures var ev := IngestEvent(sequence, includeCustom, nowIso, nowMillis);
            ev.id == LoadEventId(if sequence % 2 == 0 then "orders" else "billing", IntToString(sequence)) &&
            ev.chainId == Some(ChainId(sequence))
  {
    var p := IngestParams(sequence, includeCustom);
    assert sequence % 10 % 2 == sequence % 2;
    ChainIdNotEmpty(sequence);
    assert OrElse(p.service, "orders") == p.service.value;
  }

  lemma ChainIdNotEmpty(sequence: nat)
    ensures ChainId(sequence) != ""
  {
  }

  /** Three consecutive sequences 3k, 3k+1, 3k+2 share one chain. */
  lemma ChainIdShared(k: nat, j: nat)
    requires j < 3
    ensures ChainId(3 * k + j) == ChainId(3 * k)
  {
    assert (3 * k + j) / 3 == k;
    assert (3 * k) / 3 == k;
  }

  /** Sequences in different triples are on different chains. */
  lemma ChainIdDistinct(a: nat, b: nat)
    requires a / 3 != b / 3
    ensures ChainId(a) != ChainId(b)
  {
    var p := "lt-chain-";
    if ChainId(a) == ChainId(b) {
      assert ChainId(a)[|p|..] == IntToString(a / 3);
      assert ChainId(b)[|p|..] == IntToString(b / 3);
      IntToStringInjective(a / 3, b / 3);
    }
  }

  /** One VU of the script: its custom-type switch and its iteration counter. */
  class IngestScenario {
    var sequence: nat
    const includeCustomTypes: bool

    constructor (customTypesEnv: Option<String>)
      ensures sequence == 0
      ensures includeCustomTypes == IncludeCustomTypes(customTypesEnv)
    {
      sequence := 0;
      includeCustomTypes := IncludeCustomTypes(customTypesEnv);
    }

    /** runIngest: bump the counter by one, then build the event for the new value. */
    method RunIngest(nowIso: String, nowMillis: int) returns (payload: LoadEvent)
      modifies this
      ensures sequence == old(sequence) + 1
      ensures payload == IngestEvent(sequence, includeCustomTypes, nowIso, nowMillis)
    {
      sequence := sequence + 1;
      var selector := sequence % 10;
      var eventType := "service.deployed";
      if selector == 7 {
        eventType := "service.rolledback";
      }
      if selector == 8 {
        eventType := "service.published";
      }
      if selector == 9 {
        eventType := if includeCustomTypes then PipelineRunStarted else "service.deployed";
      }
      payload := BuildServiceEvent(
        Params(Some(eventType), Some(if selector % 2 == 0 then "orders" else "billing"),
               Some(if selector % 3 == 0 then "production" else "staging"),
               Some(sequence), Some(ChainId(sequence)), None, None,
               Some("lt-run-" + IntToString(sequence)), None, None),
        nowIso, nowMillis);
    }
  }
}
