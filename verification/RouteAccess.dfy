/**
 Role-based access over all methods and paths: the chain of guards of `evaluate_http_access`, and
 how the roles compare under it.
 */
module RouteAccess {
  import opened Strings

  datatype Role =
    | Administrator | Operator | ConnectorOperator
    | GovernanceOperator | GovernanceReviewer | GovernanceApprover | GovernanceAuditor
    | Viewer

  datatype Denial =
    | RoleForbidden | DashboardForbidden | OperationsForbidden | ReadForbidden | ActivateForbidden
    | ApprovalForbidden | QuarantineForbidden | ReplayForbidden | WriteForbidden

  datatype Decision = Allowed | Denied(why: Denial)

  // ---- Roles (app/auth/governance_rbac.py) --------------------------------------------------------------

  /** The legacy role OPERATOR is read as CONNECTOR_OPERATOR. */
  function Normalized(role: Role): Role {
    if role == Operator then ConnectorOperator else role
  }

  predicate IsGovernance(role: Role) {
    role.GovernanceOperator? || role.GovernanceReviewer? || role.GovernanceApprover? || role.GovernanceAuditor?
  }

  predicate CanConnectorOperate(role: Role) {
    role.Administrator? || Normalized(role).ConnectorOperator?
  }

  predicate CanAiRead(role: Role) {
    role.Administrator? || Normalized(role).ConnectorOperator? || role.Viewer?
  }

  predicate CanGovernanceRead(role: Role) {
    role.Administrator? || IsGovernance(role) || Normalized(role).ConnectorOperator?
  }

  predicate CanDashboardRead(role: Role) {
    CanGovernanceRead(role) || role.Viewer?
  }

  predicate CanOperations(role: Role) {
    role.Administrator? || (IsGovernance(role) && !role.GovernanceAuditor?)
  }

  predicate CanGovernanceWrite(role: Role) {
    role.Administrator? || role.GovernanceOperator?
  }

  predicate CanApprove(role: Role) {
    role.Administrator? || role.GovernanceReviewer? || role.GovernanceApprover?
  }

  predicate CanActivate(role: Role) {
    role.Administrator? || role.GovernanceApprover?
  }

  // ---- Paths ----------------------------------------------------------------------------------------------

  predicate Under(prefix: string, path: string) {
    path == prefix || prefix + "/" <= path
  }

  predicate Safe(verb: string) {
    verb == "GET" || verb == "HEAD" || verb == "OPTIONS"
  }

  predicate ViewerAllowedPost(base: string, path: string) {
    || base + "/runtime/preview/" <= path
    || path == base + "/runtime/format-preview"
    || (Contains(path, "/runtime/streams/") && EndsWith(path, "/pipeline-debug"))
  }

  predicate GovernanceReadPost(base: string, path: string) {
    && base + "/governance" <= path
    && (EndsWith(path, "/preview") || EndsWith(path, "/simulate") || Contains(path, "/impact-preview")
        || EndsWith(path, "/impact"))
  }

  predicate AdminExclusive(base: string, path: string) {
    || Under(base + "/admin/maintenance/health", path)
    || Under(base + "/admin/dev-validation/status", path)
    || Under(base + "/admin/support-bundle", path)
    || Under(base + "/admin/network-settings", path)
    || Under(base + "/admin/users", path)
  }

  predicate PlatformPolicy(base: string, path: string) {
    || Under(base + "/admin/https-settings", path)
    || Under(base + "/admin/retention-policy", path)
    || Under(base + "/admin/alert-settings", path)
  }

  predicate OperatorMutationDeny(base: string, path: string) {
    || Under(base + "/admin/users", path)
    || Under(base + "/admin/password", path)
    || Under(base + "/admin/https-settings", path)
    || Under(base + "/admin/retention-policy", path)
    || Under(base + "/admin/alert-settings", path)
  }

  // ---- The guards -----------------------------------------------------------------------------------------

  /** Administrator surfaces and wide configuration changes. */
  predicate AdminGuard(role: Role, base: string, safe: bool, path: string) {
    && !role.Administrator?
    && (|| AdminExclusive(base, path)
        || Under(base + "/admin/password", path)
        || (!safe && PlatformPolicy(base, path))
        || (!safe && base + "/backup/import/apply" <= path)
        || (!safe && Contains(path, "/apply-snapshot") && base + "/admin/config-versions" <= path))
  }

  /** The governance control plane. */
  function GovernanceGuard(role: Role, base: string, safe: bool, path: string): Decision {
    var gov := base + "/governance";
    if !Under(gov, path) then Allowed
    else if gov + "/dashboard" <= path && !CanDashboardRead(role) then Denied(DashboardForbidden)
    else if !(gov + "/dashboard" <= path) && gov + "/operations" <= path && !CanOperations(role)
        then Denied(OperationsForbidden)
    else if !(gov + "/dashboard" <= path) && !(gov + "/operations" <= path) && !CanGovernanceRead(role)
        then Denied(ReadForbidden)
    else if safe || ViewerAllowedPost(base, path) || GovernanceReadPost(base, path) then Allowed
    else if EndsWith(path, "/activate") then (if CanActivate(role) then Allowed else Denied(ActivateForbidden))
    else if Contains(path, "/approvals/") && (EndsWith(path, "/approve") || EndsWith(path, "/reject")) then
      (if CanApprove(role) then Allowed else Denied(ApprovalForbidden))
    else if Contains(path, "/quarantine/release") || Contains(path, "/quarantine/discard") then
      (if CanGovernanceWrite(role) then Allowed else Denied(QuarantineForbidden))
    else if Contains(path, "/quarantine/replay")
        then (if CanGovernanceWrite(role) then Allowed else Denied(ReplayForbidden))
    else if Contains(path, "/governance/replay") && (EndsWith(path, "/execute") || EndsWith(path, "/bulk-execute")) then
      (if CanGovernanceWrite(role) then Allowed else Denied(ReplayForbidden))
    else if CanGovernanceWrite(role) then Allowed
    else Denied(WriteForbidden)
  }

  /** Governance-only roles change nothing elsewhere. */
  predicate GovernanceOnlyGuard(role: Role, base: string, safe: bool, path: string) {
    !safe && !ViewerAllowedPost(base, path) && IsGovernance(role) && !Under(base + "/governance", path)
  }

  /** The AI gateway. */
  predicate AiGuard(role: Role, base: string, safe: bool, path: string) {
    || (!safe && !CanConnectorOperate(role)
        && (Under(base + "/ai-providers", path) || Under(base + "/ai-streams", path)))
    || (Under(base + "/ai-policy-rules", path) && if safe then !CanAiRead(role) else !CanConnectorOperate(role))
    || (!safe && !CanConnectorOperate(role) && Under(base + "/ai-providers/traffic", path))
    || (Under(base + "/ai-audit-events", path) && (!safe || !CanAiRead(role)))
    || (Under(base + "/ai-governance", path) && if safe then !CanAiRead(role) else !CanConnectorOperate(role))
  }

  /** `evaluate_http_access`, for a method in upper case. */
  function Evaluate(role: Role, base: string, verb: string, path: string): Decision {
    var safe := Safe(verb);
    if AdminGuard(role, base, safe, path) then Denied(RoleForbidden)
    else if GovernanceGuard(role, base, safe, path).Denied? then GovernanceGuard(role, base, safe, path)
    else if GovernanceOnlyGuard(role, base, safe, path) then Denied(RoleForbidden)
    else if AiGuard(role, base, safe, path) then Denied(RoleForbidden)
    else if role.Viewer? && !safe then (if ViewerAllowedPost(base, path) then Allowed else Denied(RoleForbidden))
    else if role.Operator? && !safe && OperatorMutationDeny(base, path) then Denied(RoleForbidden)
    else Allowed
  }

  // ---- How the roles compare --------------------------------------------------------------------------------

  /** OPERATOR and CONNECTOR_OPERATOR get the same decision everywhere: what the last guard keeps from
      OPERATOR, earlier guards keep from both. */
  lemma OperatorsAgree(base: string, verb: string, path: string)
    ensures Evaluate(Operator, base, verb, path) == Evaluate(ConnectorOperator, base, verb, path)
  {
    hide Under, ViewerAllowedPost, GovernanceReadPost, Contains, EndsWith, Safe;
  }

  /** An administrator is refused exactly the changes to AI audit events. */
  lemma AdministratorRefusedOnly(base: string, verb: string, path: string)
    ensures Evaluate(Administrator, base, verb, path).Denied? <==> !Safe(verb) && Under(base + "/ai-audit-events", path)
  {
    hide Under, ViewerAllowedPost, GovernanceReadPost, Contains, EndsWith, Safe;
  }

  /** Hence nobody may do what an administrator may not. */
  lemma AdministratorMayMost(role: Role, base: string, verb: string, path: string)
    requires Evaluate(role, base, verb, path).Allowed?
    ensures Evaluate(Administrator, base, verb, path).Allowed?
  {
    hide Under, ViewerAllowedPost, GovernanceReadPost, Contains, EndsWith, Safe;
    AdministratorRefusedOnly(base, verb, path);
  }

  /** AUDITOR may do no more than REVIEWER, and REVIEWER no more than APPROVER. */
  lemma GovernanceLadder(base: string, verb: string, path: string)
    ensures Evaluate(GovernanceAuditor, base, verb, path).Allowed? ==>
        Evaluate(GovernanceReviewer, base, verb, path).Allowed?
    ensures Evaluate(GovernanceReviewer, base, verb, path).Allowed? ==>
        Evaluate(GovernanceApprover, base, verb, path).Allowed?
  {
    hide Under, ViewerAllowedPost, GovernanceReadPost, Contains, EndsWith, Safe;
  }

  /** A viewer changes nothing: only preview posts get through. */
  lemma ViewerOnlyPreviews(base: string, verb: string, path: string)
    requires Evaluate(Viewer, base, verb, path).Allowed? && !Safe(verb)
    ensures ViewerAllowedPost(base, path)
  {
    hide Under, ViewerAllowedPost, GovernanceReadPost, Contains, EndsWith, Safe;
  }

  /** A governance role changes nothing outside the governance control plane, previews apart. */
  lemma GovernanceStaysInside(role: Role, base: string, verb: string, path: string)
    requires IsGovernance(role) && Evaluate(role, base, verb, path).Allowed? && !Safe(verb)
    ensures Under(base + "/governance", path) || ViewerAllowedPost(base, path)
  {
    hide Under, ViewerAllowedPost, GovernanceReadPost, Contains, EndsWith, Safe;
  }

  /** A prefix covers itself and what lies below it, and no path that merely begins like it. */
  lemma CoversBelow(prefix: string, rest: string)
    ensures Under(prefix, prefix) && Under(prefix, prefix + "/" + rest)
    ensures rest != "" && rest[0] != '/' ==> !Under(prefix, prefix + rest)
  {
    var path := prefix + rest;
    if rest != "" && rest[0] != '/' {
      assert path[|prefix|] == rest[0] && (prefix + "/")[|prefix|] == '/';
    }
  }

  // ---- What each role is refused ----------------------------------------------------------------------------

  predicate UnderAny(base: string, prefixes: seq<string>, path: string) {
    exists i :: 0 <= i < |prefixes| && Under(base + prefixes[i], path)
  }

  /** What only an administrator may do: see maintenance, support, network and user administration;
      change HTTPS, retention and alert settings; apply an import or a configuration snapshot. */
  predicate AdministratorsOnly(base: string, safe: bool, path: string) {
    || UnderAny(base, ["/admin/maintenance/health", "/admin/dev-validation/status", "/admin/support-bundle",
                       "/admin/network-settings", "/admin/users", "/admin/password"], path)
    || (!safe && UnderAny(base, ["/admin/https-settings", "/admin/retention-policy", "/admin/alert-settings"], path))
    || (!safe && base + "/backup/import/apply" <= path)
    || (!safe && base + "/admin/config-versions" <= path && Contains(path, "/apply-snapshot"))
  }

  lemma AdminGuardIs(role: Role, base: string, safe: bool, path: string)
    ensures AdminGuard(role, base, safe, path) <==> !role.Administrator? && AdministratorsOnly(base, safe, path)
  {
    hide Under, Contains;
    var hidden := ["/admin/maintenance/health", "/admin/dev-validation/status", "/admin/support-bundle",
                   "/admin/network-settings", "/admin/users", "/admin/password"];
    assert hidden[0] == "/admin/maintenance/health" && hidden[1] == "/admin/dev-validation/status"
      && hidden[2] == "/admin/support-bundle" && hidden[3] == "/admin/network-settings" && hidden[4] == "/admin/users"
      && hidden[5] == "/admin/password";
    var settings := ["/admin/https-settings", "/admin/retention-policy", "/admin/alert-settings"];
    assert settings[0] == "/admin/https-settings" && settings[1] == "/admin/retention-policy"
      && settings[2] == "/admin/alert-settings";
  }

  /** The previews that are posted and change nothing. */
  predicate Preview(base: string, path: string) {
    || base + "/runtime/preview/" <= path || path == base + "/runtime/format-preview"
    || (Contains(path, "/runtime/streams/") && EndsWith(path, "/pipeline-debug"))
  }

  predicate GovernancePreview(base: string, path: string) {
    base + "/governance" <= path && (EndsWith(path, "/preview") || EndsWith(path, "/simulate")
        || Contains(path, "/impact-preview") || EndsWith(path, "/impact"))
  }

  lemma PreviewsAre(base: string, path: string)
    ensures ViewerAllowedPost(base, path) <==> Preview(base, path)
    ensures GovernanceReadPost(base, path) <==> GovernancePreview(base, path)
  {
    hide Contains, EndsWith;
  }

  predicate Dashboard(base: string, path: string) {
    base + "/governance" + "/dashboard" <= path
  }

  predicate Operations(base: string, path: string) {
    base + "/governance" + "/operations" <= path && !Dashboard(base, path)
  }

  /** The AI gateway's surfaces that are readable without the AI roles, and those that are not. */
  predicate AiOpen(base: string, path: string) {
    Under(base + "/ai-providers", path) || Under(base + "/ai-streams", path)
        || Under(base + "/ai-providers/traffic", path)
  }

  predicate AiClosed(base: string, path: string) {
    Under(base + "/ai-policy-rules", path) || Under(base + "/ai-audit-events", path)
        || Under(base + "/ai-governance", path)
  }

  /** An operator is refused exactly: what only administrators may do, governance operations, changes to
      governance other than previews, and changes to AI audit events. */
  lemma OperatorRefusedOnly(role: Role, base: string, verb: string, path: string)
    requires role == Operator || role == ConnectorOperator
    ensures var safe := verb == "GET" || verb == "HEAD" || verb == "OPTIONS";
      Evaluate(role, base, verb, path).Denied? <==>
        || AdministratorsOnly(base, safe, path)
        || (Under(base + "/governance", path) && Operations(base, path))
        || (Under(base + "/governance", path) && !safe && !Preview(base, path) && !GovernancePreview(base, path))
        || (!safe && Under(base + "/ai-audit-events", path))
  {
    hide Under, Contains, EndsWith, AdministratorsOnly, Preview, GovernancePreview, Dashboard, Operations, Evaluate;
    ConnectorOperatorRefused(base, verb, path);
    OperatorsAgree(base, verb, path);
  }

  lemma ConnectorOperatorRefused(base: string, verb: string, path: string)
    ensures Evaluate(ConnectorOperator, base, verb, path).Denied? <==>
      || AdministratorsOnly(base, Safe(verb), path)
      || (Under(base + "/governance", path) && Operations(base, path))
      || (Under(base + "/governance", path) && !Safe(verb) && !Preview(base, path) && !GovernancePreview(base, path))
      || (!Safe(verb) && Under(base + "/ai-audit-events", path))
  {
    hide Under, ViewerAllowedPost, GovernanceReadPost, Contains, EndsWith, AdministratorsOnly, AdminGuard, Preview,
      GovernancePreview, Safe;
    PreviewsAre(base, path);
    AdminGuardIs(ConnectorOperator, base, Safe(verb), path);
  }

  /** A viewer is refused exactly: what only administrators may do, governance except its dashboard, and
      every change except previews. */
  lemma ViewerRefusedOnly(base: string, verb: string, path: string)
    ensures var safe := verb == "GET" || verb == "HEAD" || verb == "OPTIONS";
      Evaluate(Viewer, base, verb, path).Denied? <==>
        || AdministratorsOnly(base, safe, path)
        || (Under(base + "/governance", path) && !Dashboard(base, path))
        || (!safe && (!Preview(base, path) || AiOpen(base, path) || AiClosed(base, path)))
  {
    hide Under, ViewerAllowedPost, GovernanceReadPost, Contains, EndsWith, AdministratorsOnly, AdminGuard, Preview,
      GovernancePreview;
    PreviewsAre(base, path);
    AdminGuardIs(Viewer, base, Safe(verb), path);
  }

  /** Which changes to governance a governance role may make: an operator all but activations and
      approvals, a reviewer approvals, an approver both, an auditor none. */
  predicate MayGovern(role: Role, path: string) {
    var activates := EndsWith(path, "/activate");
    var approves :=
      !activates && Contains(path, "/approvals/") && (EndsWith(path, "/approve") || EndsWith(path, "/reject"));
    match role
    case GovernanceOperator => !activates && !approves
    case GovernanceReviewer => approves
    case GovernanceApprover => activates || approves
    case _ => false
  }

  /** A governance role is refused exactly: what only administrators may do, governance operations if it
      is an auditor, the changes to governance that are not its own, all other changes except previews, and
      the AI gateway apart from looking at providers and streams. */
  lemma GovernanceRefusedOnly(role: Role, base: string, verb: string, path: string)
    requires role.GovernanceOperator? || role.GovernanceReviewer? || role.GovernanceApprover? || role.GovernanceAuditor?
    ensures var safe := verb == "GET" || verb == "HEAD" || verb == "OPTIONS";
      Evaluate(role, base, verb, path).Denied? <==>
        || AdministratorsOnly(base, safe, path)
        || (role.GovernanceAuditor? && Under(base + "/governance", path) && Operations(base, path))
        || (Under(base + "/governance", path) && !safe && !Preview(base, path) && !GovernancePreview(base, path)
            && !MayGovern(role, path))
        || (!Under(base + "/governance", path) && !safe && !Preview(base, path))
        || AiClosed(base, path) || (!safe && AiOpen(base, path))
  {
    hide Under, ViewerAllowedPost, GovernanceReadPost, Contains, EndsWith, AdministratorsOnly, AdminGuard, Preview,
      GovernancePreview;
    PreviewsAre(base, path);
    AdminGuardIs(role, base, Safe(verb), path);
  }

  /** Applying an import takes an administrator. */
  lemma OnlyAdministratorsImport(role: Role, base: string)
    ensures Evaluate(role, base, "POST", base + "/backup/import/apply").Allowed? <==> role == Administrator
  {
    hide ViewerAllowedPost, GovernanceReadPost, Contains, EndsWith, Evaluate, UnderAny;
    var path, audit := base + "/backup/import/apply", base + "/ai-audit-events";
    if role == Administrator {
      AdministratorRefusedOnly(base, "POST", path);
      assert path[|base| + 1] == 'b' && audit[|base| + 1] == 'a';
    } else {
      AdminGuardIs(role, base, false, path);
      GuardRefuses(role, base, "POST", path);
    }
  }

  lemma GuardRefuses(role: Role, base: string, verb: string, path: string)
    requires AdminGuard(role, base, Safe(verb), path)
    ensures Evaluate(role, base, verb, path).Denied?
  {
    hide AdminGuard, Safe;
  }
}
