/**
 * GitHub App installation for an organization (apps/ddash/internal/application/githubintegration
 * and its domain types): a setup intent, keyed by a random state, is stored when an install
 * starts; completing the install with that state turns it into an enabled installation mapping.
 *
 * The store behind the service is modelled by its two tables, updated in place: the setup
 * intents by (trimmed) state, and the installation mappings by installation id. A store call
 * that fails is a parameter; the random bytes of the state and the clock are parameters too.
 */
module GitHubIntegration {
  import opened Wrappers
  import opened GoStrings
  import opened SqliteReadStore

  // ---------------------------------------------------------------------------
  // Domain

  const DefaultEnvironment: String := "production"

  /** NormalizeEnvironment: the trimmed value, else the trimmed fallback, else "production". */
  function NormalizeEnvironment(value: String, fallback: String): (r: String)
    ensures !IsBlank(value) ==> r == TrimSpace(value)
    ensures IsBlank(value) && !IsBlank(fallback) ==> r == TrimSpace(fallback)
    ensures IsBlank(value) && IsBlank(fallback) ==> r == DefaultEnvironment
  {
    var v := TrimSpace(value);
    var v' := if v == [] then TrimSpace(fallback) else v;
    if v' == [] then DefaultEnvironment else v'
  }

  /** The result is never blank and has no surrounding space. */
  lemma NormalizeEnvironmentClean(value: String, fallback: String)
    ensures var r := NormalizeEnvironment(value, fallback);
            r != [] && TrimmedBy(r, Spaces) && !IsBlank(r)
  {
    var r := NormalizeEnvironment(value, fallback);
    if IsBlank(value) && IsBlank(fallback) {
      NotBlankByHead(DefaultEnvironment);
    }
  }

  /** Normalizing again changes nothing. */
  lemma NormalizeEnvironmentIdempotent(value: String, fallback: String)
    ensures NormalizeEnvironment(NormalizeEnvironment(value, fallback), fallback) == NormalizeEnvironment(value, fallback)
  {
    var r := NormalizeEnvironment(value, fallback);
    NormalizeEnvironmentClean(value, fallback);
    assert TrimSpace(r) == r;
  }

  datatype InstallationMapping = InstallationMapping(
    installationId: int, organizationId: int, organizationLabel: String, defaultEnvironment: String, enabled: bool)

  /** A setup intent; times are in seconds. */
  datatype SetupIntent = SetupIntent(
    state: String, organizationId: int, organizationLabel: String, defaultEnvironment: String, expiresAt: int)

  /** How long a setup intent stays valid: fifteen minutes. */
  const SetupIntentLifetime: int := 15 * 60

  // ---------------------------------------------------------------------------
  // The setup state

  /** The lower-case hex digit of a nibble. */
  function HexDigit(d: int): (c: char)
    requires 0 <= d < 16
    ensures IsHexDigit(c)
  {
    if d < 10 then ('0' as int + d) as char else ('a' as int + d - 10) as char
  }

  predicate IsHexDigit(c: char)
  {
    '0' <= c <= '9' || 'a' <= c <= 'f'
  }

  /** The nibble a hex digit stands for. */
  function HexDigitValue(c: char): int
  {
    if '0' <= c <= '9' then c as int - '0' as int
    else if 'a' <= c <= 'f' then c as int - 'a' as int + 10
    else 0
  }

  /** hex.EncodeToString: two lower-case digits per byte, high nibble first. */
  function HexEncode(buf: seq<bv8>): (r: String)
    ensures |r| == 2 * |buf|
  {
    if buf == [] then []
    else
      var b := buf[|buf| - 1] as int;
      HexEncode(buf[..|buf| - 1]) + [HexDigit(b / 16), HexDigit(b % 16)]
  }

  /** Every character of an encoding is a hex digit. */
  lemma {:induction false} HexEncodeDigits(buf: seq<bv8>, i: nat)
    requires i < |HexEncode(buf)|
    ensures IsHexDigit(HexEncode(buf)[i])
  {
    var front := HexEncode(buf[..|buf| - 1]);
    if i < |front| {
      HexEncodeDigits(buf[..|buf| - 1], i);
    }
  }

  /** Each byte can be read back from its two digits. */
  lemma {:induction false} HexEncodeByte(buf: seq<bv8>, j: nat)
    requires j < |buf|
    ensures var r := HexEncode(buf);
            HexDigitValue(r[2 * j]) * 16 + HexDigitValue(r[2 * j + 1]) == buf[j] as int
    decreases |buf|
  {
    var front := buf[..|buf| - 1];
    var r := HexEncode(buf);
    if j < |front| {
      HexEncodeByte(front, j);
      assert r[..2 * |front|] == HexEncode(front);
    } else {
      var b := buf[j] as int;
      assert r[2 * j] == HexDigit(b / 16) && r[2 * j + 1] == HexDigit(b % 16);
      HexDigitRoundTrip(b);
    }
  }

  /** A byte is read back from its two hex digits. */
  lemma HexDigitRoundTrip(b: int)
    requires 0 <= b < 256
    ensures HexDigitValue(HexDigit(b / 16)) * 16 + HexDigitValue(HexDigit(b % 16)) == b
  {
  }

  /** Encodings of different byte strings differ, so distinct random bytes give distinct states. */
  lemma HexEncodeInjective(a: seq<bv8>, b: seq<bv8>)
    requires HexEncode(a) == HexEncode(b)
    ensures a == b
  {
    assert |a| == |b|;
    forall j | 0 <= j < |a|
      ensures a[j] == b[j]
    {
      HexEncodeByte(a, j);
      HexEncodeByte(b, j);
    }
  }

  /** A state has no surrounding space, so the store's trimming keeps it as it is. */
  lemma HexEncodeTrimmed(buf: seq<bv8>)
    ensures TrimSpace(HexEncode(buf)) == HexEncode(buf)
  {
    var r := HexEncode(buf);
    assert TrimmedBy(r, Spaces) by {
      if r != [] {
        HexEncodeDigits(buf, 0);
        HexEncodeDigits(buf, |r| - 1);
        HexDigitNotSpace(r[0]);
        HexDigitNotSpace(r[|r| - 1]);
      }
    }
  }

  lemma HexDigitNotSpace(c: char)
    requires IsHexDigit(c)
    ensures c !in Spaces
  {
  }

  // ---------------------------------------------------------------------------
  // The service

  datatype InstallError =
    | StateUnavailable            // the random source failed
    | StoreFailed(message: String)
    | SetupIntentNotFound
    | SetupIntentExpired
    | InstallerFailed(message: String)

  /** An intent filed under its own state, with a non-blank environment without surrounding space. */
  predicate Filed(state: String, intent: SetupIntent)
  {
    intent.state == state && intent.defaultEnvironment != [] && TrimmedBy(intent.defaultEnvironment, Spaces)
  }

  /** The GitHub App installer the service asks for an install URL. */
  datatype Installer = Installer(enabled: bool)

  /** Whether a service and an installer exist and the installer is enabled. */
  function Enabled(s: Service?): (r: bool)
    reads s
    ensures r <==> s != null && s.installer.Some? && s.installer.value.enabled
  {
    s != null && s.installer.Some? && s.installer.value.enabled
  }

  class Service {
    const installer: Option<Installer>
    /** The setup intents by state. */
    var intents: map<String, SetupIntent>
    /** The installation mappings by installation id. */
    var mappings: map<int, InstallationMapping>

    /** Each intent is filed under its own state and carries a clean environment; each mapping under its id. */
    predicate Valid()
      reads this
    {
      (forall k :: k in intents ==> Filed(k, intents[k]))
      && (forall i :: i in mappings ==> mappings[i].installationId == i)
    }

    constructor (installer: Option<Installer>)
      ensures Valid() && this.installer == installer && intents == map[] && mappings == map[]
    {
      this.installer := installer;
      intents := map[];
      mappings := map[];
    }

    /**
     * StartInstall: a state is drawn, an intent for it is stored (label trimmed, environment
     * normalized with "production" as fallback, expiring fifteen minutes from now), and then
     * the installer is asked for the install URL. The intent stays whatever the installer answers.
     */
    method StartInstall(organizationId: int, organizationLabel: String, defaultEnvironment: String,
                        random: Option<seq<bv8>>, now: int, storeError: Option<String>,
                        install: Result<String, String>) returns (r: Result<String, InstallError>)
      requires Valid()
      modifies this
      ensures Valid() && mappings == old(mappings)
      ensures random.None? ==> r == Err(StateUnavailable) && intents == old(intents)
      ensures random.Some? && storeError.Some? ==> r == Err(StoreFailed(storeError.value)) && intents == old(intents)
      ensures random.Some? && storeError.None? ==>
                var state := HexEncode(random.value);
                intents == old(intents)[state := SetupIntent(state, organizationId, TrimSpace(organizationLabel),
                                                             NormalizeEnvironment(defaultEnvironment, DefaultEnvironment),
                                                             now + SetupIntentLifetime)]
                && (install.Ok? ==> r == Ok(install.value))
                && (install.Err? ==> r == Err(InstallerFailed(install.error)))
    {
      if random.None? {
        return Err(StateUnavailable);
      }
      var state := HexEncode(random.value);
      if storeError.Some? {
        return Err(StoreFailed(storeError.value));
      }
      var environment := NormalizeEnvironment(defaultEnvironment, DefaultEnvironment);
      var key := TrimSpace(state);
      var intent := SetupIntent(state, organizationId, TrimSpace(organizationLabel), environment, now + SetupIntentLifetime);
      assert key == state by {
        HexEncodeTrimmed(random.value);
      }
      assert Filed(key, intent) by {
        NormalizeEnvironmentClean(defaultEnvironment, DefaultEnvironment);
      }
      intents := intents[key := intent];
      if install.Err? {
        return Err(InstallerFailed(install.error));
      }
      r := Ok(install.value);
    }

    /**
     * CompleteInstall: the intent is looked up by the trimmed state. An unknown state is an
     * error with no writes. An intent whose expiry is strictly before now is deleted and the
     * install is refused. Otherwise an enabled mapping with the intent's organization, label and
     * environment is upserted under the installation id, and then the intent is deleted.
     */
    method CompleteInstall(state: String, installationId: int, now: int, lookupError: Option<String>,
                           upsertError: Option<String>, deleteError: Option<String>) returns (err: Option<InstallError>)
      requires Valid()
      modifies this
      ensures Valid()
      ensures lookupError.Some? ==> err == Some(StoreFailed(lookupError.value)) && unchanged(this)
      ensures lookupError.None? && TrimSpace(state) !in old(intents) ==> err == Some(SetupIntentNotFound) && unchanged(this)
      ensures lookupError.None? && TrimSpace(state) in old(intents) && now > old(intents)[TrimSpace(state)].expiresAt ==>
                err == Some(SetupIntentExpired) && mappings == old(mappings)
                && intents == (if deleteError.None? then old(intents) - {TrimSpace(state)} else old(intents))
      ensures lookupError.None? && TrimSpace(state) in old(intents) && now <= old(intents)[TrimSpace(state)].expiresAt ==>
                var intent := old(intents)[TrimSpace(state)];
                (upsertError.Some? ==> err == Some(StoreFailed(upsertError.value)) && unchanged(this))
                && (upsertError.None? ==>
                      mappings == old(mappings)[installationId := MappingFor(intent, installationId)]
                      && (deleteError.None? ==> err.None? && intents == old(intents) - {TrimSpace(state)})
                      && (deleteError.Some? ==> err == Some(StoreFailed(deleteError.value)) && intents == old(intents)))
    {
      var key := TrimSpace(state);
      if lookupError.Some? {
        return Some(StoreFailed(lookupError.value));
      }
      if key !in intents {
        return Some(SetupIntentNotFound);
      }
      var intent := intents[key];
      if now > intent.expiresAt {
        if deleteError.None? {
          intents := intents - {key};
        }
        return Some(SetupIntentExpired);
      }
      if upsertError.Some? {
        return Some(StoreFailed(upsertError.value));
      }
      mappings := mappings[installationId := MappingFor(intent, installationId)];
      if deleteError.Some? {
        return Some(StoreFailed(deleteError.value));
      }
      intents := intents - {key};
      err := None;
    }

    /**
     * DeleteMapping: the store deletes the mapping of that installation if it belongs to that
     * organization; deleting nothing is reported as no rows.
     */
    method DeleteMapping(organizationId: int, installationId: int, storeError: Option<String>) returns (err: Option<RowError>)
      requires Valid()
      modifies this
      ensures Valid() && intents == old(intents)
      ensures storeError.Some? ==> err == Some(RowFailed(storeError.value)) && mappings == old(mappings)
      ensures storeError.None? && installationId in old(mappings) && old(mappings)[installationId].organizationId == organizationId ==>
                err.None? && mappings == old(mappings) - {installationId}
      ensures storeError.None? && !(installationId in old(mappings) && old(mappings)[installationId].organizationId == organizationId) ==>
                err == Some(NoRows) && mappings == old(mappings)
    {
      if storeError.Some? {
        return Some(RowFailed(storeError.value));
      }
      if installationId in mappings && mappings[installationId].organizationId == organizationId {
        mappings := mappings - {installationId};
        err := None;
      } else {
        err := Some(NoRows);
      }
    }
  }

  /** The mapping a completed install writes: enabled, with the intent's organization, label and environment. */
  function MappingFor(intent: SetupIntent, installationId: int): InstallationMapping
  {
    InstallationMapping(installationId, intent.organizationId, intent.organizationLabel, intent.defaultEnvironment, true)
  }
}
