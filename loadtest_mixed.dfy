/**
 * The mixed read/write script (loadtest/mixed.js): the ingest scenario's counter picks the next
 * event, and the read scenario logs in through the dev login once per VU before reading.
 * The HTTP calls, checks and sleeps are left out.
 */
module LoadTestMixed {
  import opened Wrappers
  import opened GoStrings
  import opened CDEvents
  import opened LoadTestCommon

  function MixedChainId(sequence: nat): String
  {
    "mixed-chain-" + IntToString(sequence / 4)
  }

  /** The parameters one ingest iteration passes to buildServiceEvent for the (already bumped) sequence. */
  function MixedParams(sequence: nat): (p: Params)
    ensures p.sequence == Some(sequence) && p.chainId == Some(MixedChainId(sequence))
    ensures p.service == Some(if sequence % 2 == 0 then "orders" else "billing")
    ensures p.environment == Some(if sequence % 3 == 0 then "production" else "staging")
  {
    Params(Some(if sequence % 6 == 0 then "service.rolledback" else "service.deployed"),
           Some(if sequence % 2 == 0 then "orders" else "billing"),
           Some(if sequence % 3 == 0 then "production" else "staging"),
           Some(sequence), Some(MixedChainId(sequence)), None, None, None, None, None)
  }

  function MixedEvent(sequence: nat, nowIso: String, nowMillis: int): LoadEvent
  {
    BuildServiceEvent(MixedParams(sequence), nowIso, nowMillis)
  }

  /** Every sixth event rolls back, the others deploy. */
  lemma MixedEventType(sequence: nat, nowIso: String, nowMillis: int)
    ensures var t := MixedEvent(sequence, nowIso, nowMillis).eventType;
            (t == ServiceRolledback <==> sequence % 6 == 0) &&
            (t == ServiceDeployed <==> sequence % 6 != 0)
  {
  }

  /** Even sequences go to orders and odd ones to billing; multiples of three to production, the rest to staging. */
  lemma MixedEventTarget(sequence: nat, nowIso: String, nowMillis: int)
    ensures var ev := MixedEvent(sequence, nowIso, nowMillis);
            ev.subjectId == "service/" + (if sequence % 2 == 0 then "orders" else "billing") &&
            ev.environment == (if sequence % 3 == 0 then "production" else "staging")
  {
    var p := MixedParams(sequence);
    var service := if sequence % 2 == 0 then "orders" else "billing";
    var env := if sequence % 3 == 0 then "production" else "staging";
    assert OrElse(p.service, "orders") == service;
    assert OrElse(p.environment, "staging") == env;
  }

  /** Four consecutive sequences 4k .. 4k+3 share one chain. */
  lemma MixedChainShared(k: nat, j: nat)
    requires j < 4
    ensures MixedChainId(4 * k + j) == MixedChainId(4 * k)
  {
    assert (4 * k + j) / 4 == k;
    assert (4 * k) / 4 == k;
  }

  /** How many dev logins `n` consecutive ensureLogin calls make from a given flag. */
  function LoginCalls(loggedIn: bool, n: nat): nat
    decreases n
  {
    if n == 0 then 0 else (if loggedIn then 0 else 1) + LoginCalls(true, n - 1)
  }

  /** ensureLogin logs in at most once per VU, and exactly once when it starts logged out. */
  lemma {:induction false} LoginCallsAtMostOnce(loggedIn: bool, n: nat)
    ensures LoginCalls(loggedIn, n) == (if !loggedIn && n > 0 then 1 else 0)
    decreases n
  {
    if n > 0 {
      LoginCallsAtMostOnce(true, n - 1);
    }
  }

  /** One VU of the script: the ingest counter and the login flag. */
  class MixedScenario {
    var ingestSequence: nat
    var loggedIn: bool

    constructor ()
      ensures ingestSequence == 0 && !loggedIn
    {
      ingestSequence := 0;
      loggedIn := false;
    }

    /** ensureLogin: calls devLogin exactly when not yet logged in; afterwards the flag is set. */
    method EnsureLogin() returns (calledLogin: bool)
      modifies this
      ensures calledLogin == !old(loggedIn)
      ensures loggedIn && ingestSequence == old(ingestSequence)
    {
      if loggedIn {
        return false;
      }
      loggedIn := true;
      return true;
    }

    /** runIngest: bump the counter by one, then build the event for the new value. */
    method RunIngest(nowIso: String, nowMillis: int) returns (payload: LoadEvent)
      modifies this
      ensures ingestSequence == old(ingestSequence) + 1 && loggedIn == old(loggedIn)
      ensures payload == MixedEvent(ingestSequence, nowIso, nowMillis)
    {
      ingestSequence := ingestSequence + 1;
      payload := BuildServiceEvent(MixedParams(ingestSequence), nowIso, nowMillis);
    }

    /** runRead: log in if needed, then read one service page; the page's URL is returned. */
    method RunRead(env: map<String, String>) returns (calledLogin: bool, url: String)
      modifies this
      ensures calledLogin == !old(loggedIn) && loggedIn
      ensures ingestSequence == old(ingestSequence)
      ensures url == BaseUrl(env) + "/s/orders"
    {
      calledLogin := EnsureLogin();
      url := BaseUrl(env) + "/s/orders";
    }
  }
}
