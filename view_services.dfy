/**
 * The service pages' helpers (apps/ddash/internal/server/routes/view_services.go): the redirect
 * back to a service's page, the dependency form handlers behind their feature gate, the
 * deployment-history window and the masking of sensitive metadata values.
 *
 * The clock and time.Parse are parameters (timestamps in seconds); the URL encoding of the
 * redirect target is not modelled, only the values it encodes.
 */
module ViewServices {
  import opened Wrappers
  import opened GoStrings
  import opened HttpReply
  import ServiceRead

  // ---------------------------------------------------------------------------
  // serviceDetailsRedirectURL

  /** What the redirect URL carries: the service's path segment and the `msg` and `level` query values. */
  datatype RedirectTarget = RedirectTarget(service: String, message: Option<String>, level: String)

  /**
   * serviceDetailsRedirectURL: the trimmed service name, the trimmed message when it is not
   * blank, and level "error" exactly when "error" was asked for, "success" otherwise.
   */
  function ServiceDetailsRedirect(serviceName: String, message: String, level: String): (r: RedirectTarget)
    ensures r.level == "error" <==> level == "error"
    ensures r.level == "error" || r.level == "success"
    ensures r.message.None? <==> IsBlank(message)
    ensures r.message.Some? ==> r.message.value == TrimSpace(message) && r.message.value != []
    ensures r.service == TrimSpace(serviceName)
  {
    var msg := TrimSpace(message);
    RedirectTarget(TrimSpace(serviceName), if msg == [] then None else Some(msg),
                   if level == "error" then "error" else "success")
  }

  /** The level is always set, so the query string is never empty and the URL always has one. */
  lemma RedirectAlwaysHasQuery(serviceName: String, message: String, level: String)
    ensures ServiceDetailsRedirect(serviceName, message, level).level != []
  {
  }

  // ---------------------------------------------------------------------------
  // handleServiceDependencyUpsert and handleServiceDependencyDelete

  datatype DependencyAction = AddDependency | RemoveDependency

  /** What a route handler does: an empty reply with a status, a redirect, or an error returned to the router. */
  datatype RouteResult = NoContent(status: int) | Redirect(status: int, target: RedirectTarget) | RouteError(message: String)

  /** The inputs of a dependency form post: the organization and settings lookups, the path name and the form value. */
  datatype DependencyRequest = DependencyRequest(organizationId: Result<int, String>, showDependencies: Result<bool, String>,
                                                 name: String, dependsOn: String)

  /** One call to the read store's UpsertServiceDependency or DeleteServiceDependency. */
  datatype DependencyCall = DependencyCall(action: DependencyAction, organizationId: int, service: String, dependsOn: String)

  function DependencyMessage(action: DependencyAction): String
  {
    match action
    case AddDependency => "Dependency added"
    case RemoveDependency => "Dependency removed"
  }

  /**
   * The two dependency handlers: the organization and settings lookups, then the feature gate
   * (403), then one store call with the trimmed names, then a 302 back to the service page.
   * The store's answer is a parameter; the call made, if any, is returned with the result.
   */
  function HandleDependencyWrite(action: DependencyAction, req: DependencyRequest,
                                 store: DependencyCall -> Option<String>): (r: (Option<DependencyCall>, RouteResult))
    ensures req.organizationId.Err? ==> r == (None, RouteError(req.organizationId.error))
    ensures req.organizationId.Ok? && req.showDependencies.Err? ==> r == (None, RouteError(req.showDependencies.error))
    ensures req.showDependencies == Ok(false) ==> r.0.None? && (req.organizationId.Ok? ==> r.1 == NoContent(StatusForbidden))
    ensures r.0.Some? <==> req.organizationId.Ok? && req.showDependencies == Ok(true)
    ensures r.0.Some? ==> r.0.value == DependencyCall(action, req.organizationId.value, TrimSpace(req.name), TrimSpace(req.dependsOn))
    ensures r.0.Some? && store(r.0.value).Some? ==> r.1 == RouteError(store(r.0.value).value)
    ensures r.0.Some? && store(r.0.value).None? ==>
              r.1 == Redirect(StatusFound, ServiceDetailsRedirect(TrimSpace(req.name), DependencyMessage(action), "success"))
  {
    match req.organizationId
    case Err(e) => (None, RouteError(e))
    case Ok(orgId) =>
      match req.showDependencies
      case Err(e) => (None, RouteError(e))
      case Ok(show) =>
        if !show then (None, NoContent(StatusForbidden))
        else
          var call := DependencyCall(action, orgId, TrimSpace(req.name), TrimSpace(req.dependsOn));
          match store(call)
          case Some(e) => (Some(call), RouteError(e))
          case None => (Some(call), Redirect(StatusFound, ServiceDetailsRedirect(call.service, DependencyMessage(action), "success")))
  }

  /** A successful dependency write always redirects with the "success" level and its message. */
  lemma DependencyRedirectSucceeds(action: DependencyAction, req: DependencyRequest, store: DependencyCall -> Option<String>)
    requires HandleDependencyWrite(action, req, store).1.Redirect?
    ensures var t := HandleDependencyWrite(action, req, store).1.target;
            t.level == "success" && t.message == Some(DependencyMessage(action))
  {
    DependencyMessageTrimmed(action);
  }

  lemma DependencyMessageTrimmed(action: DependencyAction)
    ensures TrimSpace(DependencyMessage(action)) == DependencyMessage(action) != []
  {
    var m := DependencyMessage(action);
    assert m[0] == 'D' && m[|m| - 1] == 'd';
    assert TrimmedBy(m, Spaces);
  }

  // ---------------------------------------------------------------------------
  // trimDeploymentHistoryByDays

  /** A row is dropped when its time parses and lies strictly before the cutoff. */
  predicate Expired(row: ServiceRead.DeploymentRecord, parse: String -> Option<int>, cutoff: int)
  {
    parse(row.deployedAt).Some? && parse(row.deployedAt).value < cutoff
  }

  /** The rows that are kept, in order. */
  function KeepRecent(rows: seq<ServiceRead.DeploymentRecord>, parse: String -> Option<int>, cutoff: int)
    : (r: seq<ServiceRead.DeploymentRecord>)
    ensures |r| <= |rows|
  {
    if rows == [] then []
    else
      var rest := KeepRecent(rows[1..], parse, cutoff);
      if Expired(rows[0], parse, cutoff) then rest else [rows[0]] + rest
  }

  /**
   * trimDeploymentHistoryByDays: for days <= 0 the input; otherwise the rows that are not
   * expired with respect to `days` days before the clock. The clock and the layout parse of
   * "2006-01-02 15:04" are parameters, in seconds.
   */
  function TrimDeploymentHistoryByDays(rows: seq<ServiceRead.DeploymentRecord>, days: int,
                                       parse: String -> Option<int>, nowSeconds: int): seq<ServiceRead.DeploymentRecord>
  {
    if days <= 0 then rows else KeepRecent(rows, parse, nowSeconds - days * 86400)
  }

  /** No window keeps every row; a window keeps exactly the rows that are not older than it, by the clock. */
  lemma TrimDeploymentHistoryWindow(rows: seq<ServiceRead.DeploymentRecord>, days: int, parse: String -> Option<int>,
                                    nowSeconds: int, x: ServiceRead.DeploymentRecord)
    ensures days <= 0 ==> TrimDeploymentHistoryByDays(rows, days, parse, nowSeconds) == rows
    ensures days > 0 ==> (x in TrimDeploymentHistoryByDays(rows, days, parse, nowSeconds)
                          <==> x in rows && !Expired(x, parse, nowSeconds - days * 86400))
  {
    if days > 0 {
      KeepRecentMembers(rows, parse, nowSeconds - days * 86400, x);
    }
  }

  /** A row survives exactly when it is in the input and not expired; rows whose time does not parse always survive. */
  lemma {:induction false} KeepRecentMembers(rows: seq<ServiceRead.DeploymentRecord>, parse: String -> Option<int>,
                                             cutoff: int, x: ServiceRead.DeploymentRecord)
    ensures x in KeepRecent(rows, parse, cutoff) <==> x in rows && !Expired(x, parse, cutoff)
  {
    if rows != [] {
      KeepRecentMembers(rows[1..], parse, cutoff, x);
      assert rows == [rows[0]] + rows[1..];
    }
  }

  /** The filter works row by row, so it keeps the order of the rows. */
  lemma {:induction false} KeepRecentConcat(a: seq<ServiceRead.DeploymentRecord>, b: seq<ServiceRead.DeploymentRecord>,
                                            parse: String -> Option<int>, cutoff: int)
    ensures KeepRecent(a + b, parse, cutoff) == KeepRecent(a, parse, cutoff) + KeepRecent(b, parse, cutoff)
  {
    if a != [] {
      assert (a + b)[1..] == a[1..] + b;
      KeepRecentConcat(a[1..], b, parse, cutoff);
    } else {
      assert a + b == b;
    }
  }

  /** Nothing expired means nothing is dropped. */
  lemma {:induction false} KeepRecentAllRecent(rows: seq<ServiceRead.DeploymentRecord>, parse: String -> Option<int>, cutoff: int)
    requires forall k :: 0 <= k < |rows| ==> !Expired(rows[k], parse, cutoff)
    ensures KeepRecent(rows, parse, cutoff) == rows
  {
    if rows != [] {
      KeepRecentAllRecent(rows[1..], parse, cutoff);
      assert rows == [rows[0]] + rows[1..];
    }
  }

  /** Trimming twice with the same window and clock is trimming once. */
  lemma {:induction false} KeepRecentIdempotent(rows: seq<ServiceRead.DeploymentRecord>, parse: String -> Option<int>, cutoff: int)
    ensures KeepRecent(KeepRecent(rows, parse, cutoff), parse, cutoff) == KeepRecent(rows, parse, cutoff)
  {
    var kept := KeepRecent(rows, parse, cutoff);
    forall k | 0 <= k < |kept|
      ensures !Expired(kept[k], parse, cutoff)
    {
      KeepRecentMembers(rows, parse, cutoff, kept[k]);
    }
    KeepRecentAllRecent(kept, parse, cutoff);
  }

  // ---------------------------------------------------------------------------
  // maskSensitiveFields

  /** A label that names a secret: its folded form contains secret, token, password or key. */
  predicate IsSensitiveLabel(fieldLabel: String)
  {
    var l := Fold(fieldLabel);
    Contains(l, "secret") || Contains(l, "token") || Contains(l, "password") || Contains(l, "key")
  }

  const Mask: String := "***"

  /** One field: the value becomes "***" when the label is sensitive and the value is not blank. */
  function MaskField(field: ServiceRead.MetadataField): (r: ServiceRead.MetadataField)
    ensures r.fieldLabel == field.fieldLabel && r.filterable == field.filterable
    ensures r.value == Mask <==> (IsSensitiveLabel(field.fieldLabel) && !IsBlank(field.value)) || field.value == Mask
    ensures r.value != Mask ==> r.value == field.value
  {
    if IsSensitiveLabel(field.fieldLabel) && TrimSpace(field.value) != [] then field.(value := Mask) else field
  }

  /** maskSensitiveFields: every field masked on its own, in order. */
  function MaskSensitiveFields(fields: seq<ServiceRead.MetadataField>): (r: seq<ServiceRead.MetadataField>)
    ensures |r| == |fields|
    ensures forall i :: 0 <= i < |fields| ==> r[i] == MaskField(fields[i])
  {
    seq(|fields|, i requires 0 <= i < |fields| => MaskField(fields[i]))
  }

  /** The mask is not blank, so a masked value stays masked. */
  lemma MaskNotBlank()
    ensures !IsBlank(Mask)
  {
    NotBlankByHead(Mask);
  }

  /** Masking keeps every label and the fields' order, and masking twice is masking once. */
  lemma MaskSensitiveFieldsIdempotent(fields: seq<ServiceRead.MetadataField>)
    ensures MaskSensitiveFields(MaskSensitiveFields(fields)) == MaskSensitiveFields(fields)
    ensures forall i :: 0 <= i < |fields| ==> MaskSensitiveFields(fields)[i].fieldLabel == fields[i].fieldLabel
  {
    MaskNotBlank();
    var once := MaskSensitiveFields(fields);
    forall i | 0 <= i < |fields|
      ensures MaskField(once[i]) == once[i]
    {
    }
  }

  /** A field whose label is not sensitive keeps its value. */
  lemma MaskKeepsPlainFields(fields: seq<ServiceRead.MetadataField>, i: int)
    requires 0 <= i < |fields| && !IsSensitiveLabel(fields[i].fieldLabel)
    ensures MaskSensitiveFields(fields)[i] == fields[i]
  {
  }
}
