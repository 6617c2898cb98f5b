/**
 * The invite e-mail handler: secret checks, the normalised request, the
 * ordered checks against the stored invite and the caller's membership,
 * and the message handed to the mail service (sender address, recipient,
 * subject and HTML body).
 */
module InviteEmail {
  import opened Wrappers
  import opened Text
  import opened Http
  import opened Templating
  import Profiles

  /** The environment variables the handler reads, each "" when unset. */
  datatype InviteEnv = InviteEnv(
    supabaseUrl: string,
    supabaseAnonKey: string,
    serviceRoleKey: string,
    awsRegion: string,
    awsAccessKeyId: string,
    awsSecretAccessKey: string,
    emailFrom: string,
    appUrl: string,
    inviteSubject: string)

  /** The JSON body; each field is "" when absent. */
  datatype InviteBody = InviteBody(invitedEmail: string, inviteLink: string, role: string, inviteToken: string)

  /** A row of the invites table, each column "" when null. */
  datatype InviteRow = InviteRow(orgId: string, invitedEmail: string, status: string)

  /** The invites table keyed by token, and the membership roles keyed by organisation and user. */
  type Invites = map<string, InviteRow>
  type Memberships = map<(string, Profiles.UserId), string>

  // ---------------------------------------------------------------------
  // Missing AWS secrets

  const AwsSecretNames: seq<string> := ["AWS_REGION", "AWS_ACCESS_KEY_ID", "AWS_SECRET_ACCESS_KEY"]

  function AwsSecretValues(env: InviteEnv): (vs: seq<string>)
    ensures |vs| == |AwsSecretNames|
  {
    [env.awsRegion, env.awsAccessKeyId, env.awsSecretAccessKey]
  }

  /** The names whose value is empty, in the order of `names`. */
  function EmptyNames(names: seq<string>, values: seq<string>): seq<string>
    requires |names| == |values|
  {
    if names == [] then []
    else (if values[0] == "" then [names[0]] else []) + EmptyNames(names[1..], values[1..])
  }

  /** `xs` is `ys` with some elements dropped and the rest in their order. */
  predicate Subsequence(xs: seq<string>, ys: seq<string>)
    decreases |ys|
  {
    if xs == [] then true
    else if ys == [] then false
    else (xs[0] == ys[0] && Subsequence(xs[1..], ys[1..])) || Subsequence(xs, ys[1..])
  }

  lemma {:induction false} EmptyNamesMembership(names: seq<string>, values: seq<string>, name: string)
    requires |names| == |values|
    ensures name in EmptyNames(names, values) <==> exists i :: 0 <= i < |names| && names[i] == name && values[i] == ""
  {
    if names != [] {
      EmptyNamesMembership(names[1..], values[1..], name);
      if name in EmptyNames(names[1..], values[1..]) {
        var i :| 0 <= i < |names[1..]| && names[1..][i] == name && values[1..][i] == "";
        assert names[i + 1] == name && values[i + 1] == "";
      }
      if exists i :: 0 <= i < |names| && names[i] == name && values[i] == "" {
        var i :| 0 <= i < |names| && names[i] == name && values[i] == "";
        if i > 0 {
          assert names[1..][i - 1] == name && values[1..][i - 1] == "";
        }
      }
    }
  }

  lemma {:induction false} EmptyNamesInOrder(names: seq<string>, values: seq<string>)
    requires |names| == |values|
    ensures Subsequence(EmptyNames(names, values), names)
  {
    if names != [] {
      var rest := EmptyNames(names[1..], values[1..]);
      EmptyNamesInOrder(names[1..], values[1..]);
      if values[0] == "" {
        assert EmptyNames(names, values) == [names[0]] + rest;
        assert ([names[0]] + rest)[1..] == rest;
      } else {
        assert EmptyNames(names, values) == rest;
        assert rest == [] || !(rest[0] == names[0] && Subsequence(rest[1..], names[1..])) || Subsequence(rest, names[1..]);
      }
    }
  }

  /** The specification of `missingAws`: the unset SES secrets, in their fixed order. */
  function MissingAws(env: InviteEnv): seq<string> {
    EmptyNames(AwsSecretNames, AwsSecretValues(env))
  }

  /** `missingAws`, built by the source's three conditional pushes. */
  method CollectMissingAws(env: InviteEnv) returns (missing: seq<string>)
    ensures missing == MissingAws(env)
  {
    missing := [];
    if env.awsRegion == "" {
      missing := missing + ["AWS_REGION"];
    }
    if env.awsAccessKeyId == "" {
      missing := missing + ["AWS_ACCESS_KEY_ID"];
    }
    if env.awsSecretAccessKey == "" {
      missing := missing + ["AWS_SECRET_ACCESS_KEY"];
    }
    var names, values := AwsSecretNames, AwsSecretValues(env);
    assert names[1..][1..][1..] == [] && values[1..][1..][1..] == [];
    assert EmptyNames(names[1..][1..], values[1..][1..])
        == (if env.awsSecretAccessKey == "" then ["AWS_SECRET_ACCESS_KEY"] else []);
    assert EmptyNames(names[1..], values[1..])
        == (if env.awsAccessKeyId == "" then ["AWS_ACCESS_KEY_ID"] else []) + EmptyNames(names[1..][1..], values[1..][1..]);
  }

  /** Among distinct names, a name is reported exactly when its own value is empty. */
  lemma EmptyNamesAt(names: seq<string>, values: seq<string>, i: int)
    requires |names| == |values| && 0 <= i < |names|
    requires forall j :: 0 <= j < |names| && j != i ==> names[j] != names[i]
    ensures names[i] in EmptyNames(names, values) <==> values[i] == ""
  {
    EmptyNamesMembership(names, values, names[i]);
  }

  /** A secret is named in the error exactly when it is unset, and the names keep their fixed order. */
  lemma MissingAwsNamesExactlyTheUnset(env: InviteEnv)
    ensures "AWS_REGION" in MissingAws(env) <==> env.awsRegion == ""
    ensures "AWS_ACCESS_KEY_ID" in MissingAws(env) <==> env.awsAccessKeyId == ""
    ensures "AWS_SECRET_ACCESS_KEY" in MissingAws(env) <==> env.awsSecretAccessKey == ""
    ensures Subsequence(MissingAws(env), AwsSecretNames)
  {
    var names, values := AwsSecretNames, AwsSecretValues(env);
    assert names[0][4] == 'R' && names[1][4] == 'A' && names[2][4] == 'S';
    EmptyNamesAt(names, values, 0);
    EmptyNamesAt(names, values, 1);
    EmptyNamesAt(names, values, 2);
    EmptyNamesInOrder(names, values);
  }


  /** No error at all when every SES secret is set. */
  lemma MissingAwsEmptyIffAllSet(env: InviteEnv)
    ensures MissingAws(env) == [] <==> env.awsRegion != "" && env.awsAccessKeyId != "" && env.awsSecretAccessKey != ""
  {
    MissingAwsNamesExactlyTheUnset(env);
  }

  // ---------------------------------------------------------------------
  // The request

  /** The body as the handler uses it: trimmed, the e-mail and role lower-cased, the role defaulting to "user". */
  datatype InviteRequest = InviteRequest(invitedEmail: string, inviteLink: string, inviteToken: string, role: string)

  const DefaultRole := "user"

  function NormalizeBody(body: InviteBody): InviteRequest {
    InviteRequest(
      Lower(Trim(body.invitedEmail)),
      Trim(body.inviteLink),
      Trim(body.inviteToken),
      Lower(Trim(Or(body.role, DefaultRole))))
  }

  /** Trimmed and free of upper-case letters. */
  predicate Canonical(s: string) {
    Trim(s) == s && IsLowerCase(s)
  }

  lemma LowerIsLowerCase(s: string)
    ensures IsLowerCase(Lower(s))
  {
  }

  /** Trimming, then lower-casing, gives a canonical string. */
  lemma CanonicalForm(s: string)
    ensures Canonical(Lower(Trim(s)))
  {
    TrimLowerCommute(Trim(s));
    TrimIdempotent(s);
    LowerIsLowerCase(Trim(s));
  }

  /** Normalising a canonical string leaves it as it is. */
  lemma CanonicalIsFixed(s: string)
    requires Canonical(s)
    ensures Lower(Trim(s)) == s
  {
    LowerOfLowerCase(s);
  }

  /** The normalised e-mail and role are canonical, the link and token trimmed. */
  lemma NormalizedIsCanonical(body: InviteBody)
    ensures var n := NormalizeBody(body);
      && Canonical(n.invitedEmail) && Canonical(n.role)
      && Trim(n.inviteLink) == n.inviteLink && Trim(n.inviteToken) == n.inviteToken
  {
    CanonicalForm(body.invitedEmail);
    CanonicalForm(Or(body.role, DefaultRole));
    TrimIdempotent(body.inviteLink);
    TrimIdempotent(body.inviteToken);
  }

  lemma UserIsCanonical()
    ensures Lower(Trim(DefaultRole)) == DefaultRole
  {
    var u := DefaultRole;
    assert |u| == 4 && u[0] == 'u' && u[1] == 's' && u[2] == 'e' && u[3] == 'r';
    assert !IsSpace(u[0]) && !IsSpace(u[3]);
    assert IsLowerCase(u);
    LowerOfLowerCase(u);
  }

  /**
   * Normalising again changes nothing but a blank role, which then defaults
   * to "user" and still reads "User".
   */
  lemma NormalizeBodyIdempotent(body: InviteBody)
    ensures var n := NormalizeBody(body);
      var again := NormalizeBody(InviteBody(n.invitedEmail, n.inviteLink, n.role, n.inviteToken));
      && again.invitedEmail == n.invitedEmail && again.inviteLink == n.inviteLink && again.inviteToken == n.inviteToken
      && again.role == Or(n.role, DefaultRole)
      && SafeRole(again.role) == SafeRole(n.role)
  {
    var n := NormalizeBody(body);
    NormalizedIsCanonical(body);
    CanonicalIsFixed(n.invitedEmail);
    if n.role == "" {
      UserIsCanonical();
    } else {
      CanonicalIsFixed(n.role);
    }
  }



  // ---------------------------------------------------------------------
  // Ordered checks

  const MissingFields := Failure(400, "Missing invitedEmail / inviteLink / inviteToken")
  const InviteNotFound := Failure(404, "Invite not found")
  const NotPending := Failure(409, "Invite is not pending")
  const EmailMismatch := Failure(400, "Invite email mismatch")
  const MissingOrg := Failure(500, "Invite missing org_id")
  const NotAllowed := Failure(403, "Not allowed")

  /** What the checks establish: who is invited, through which link, by whom, into which organisation. */
  datatype Authorized = Authorized(request: InviteRequest, orgId: string, callerRole: string)

  /** The caller's role in the organisation, "" without a membership row. */
  function CallerRole(memberships: Memberships, orgId: string, user: Profiles.UserId): string {
    if (orgId, user) in memberships then Lower(memberships[(orgId, user)]) else ""
  }

  predicate IsOrgAdmin(role: string) {
    role == "owner" || role == "admin"
  }

  /** Every check after authentication passes. */
  predicate ChecksPass(user: AuthUser, req: InviteRequest, invites: Invites, memberships: Memberships) {
    && req.invitedEmail != "" && req.inviteLink != "" && req.inviteToken != ""
    && req.inviteToken in invites
    && Lower(invites[req.inviteToken].status) == "pending"
    && Lower(invites[req.inviteToken].invitedEmail) == req.invitedEmail
    && Trim(invites[req.inviteToken].orgId) != ""
    && IsOrgAdmin(CallerRole(memberships, Trim(invites[req.inviteToken].orgId), user.id))
  }

  /**
   * The checks after authentication, in the source's order: missing fields,
   * unknown token, invite not pending, e-mail mismatch, invite without an
   * organisation, caller not an owner or admin of it.
   */
  function CheckInvite(user: AuthUser, body: InviteBody, invites: Invites, memberships: Memberships)
    : (r: Flow<Authorized>)
    ensures var req := NormalizeBody(body);
      && (req.invitedEmail == "" || req.inviteLink == "" || req.inviteToken == "" ==> r == Stop(MissingFields))
      && (req.invitedEmail != "" && req.inviteLink != "" && req.inviteToken != "" && req.inviteToken !in invites
          ==> r == Stop(InviteNotFound))
    ensures var req := NormalizeBody(body);
      req.invitedEmail != "" && req.inviteLink != "" && req.inviteToken != "" && req.inviteToken in invites ==>
        var row := invites[req.inviteToken];
        && (Lower(row.status) != "pending" ==> r == Stop(NotPending))
        && (Lower(row.status) == "pending" && Lower(row.invitedEmail) != req.invitedEmail ==> r == Stop(EmailMismatch))
        && (Lower(row.status) == "pending" && Lower(row.invitedEmail) == req.invitedEmail && Blank(row.orgId)
            ==> r == Stop(MissingOrg))
        && ((Lower(row.status) == "pending" && Lower(row.invitedEmail) == req.invitedEmail && !Blank(row.orgId)
             && !IsOrgAdmin(CallerRole(memberships, Trim(row.orgId), user.id))) ==> r == Stop(NotAllowed))
    ensures r.Stop? ==> r.response.Failure?
    ensures r.Continue? <==> ChecksPass(user, NormalizeBody(body), invites, memberships)
    ensures r.Continue? ==>
      && r.value.request == NormalizeBody(body)
      && r.value.orgId == Trim(invites[NormalizeBody(body).inviteToken].orgId)
      && r.value.callerRole == CallerRole(memberships, r.value.orgId, user.id)
  {
    var req := NormalizeBody(body);
    if req.invitedEmail == "" || req.inviteLink == "" || req.inviteToken == "" then Stop(MissingFields)
    else if req.inviteToken !in invites then Stop(InviteNotFound)
    else
      var row := invites[req.inviteToken];
      if Lower(row.status) != "pending" then Stop(NotPending)
      else if Lower(row.invitedEmail) != req.invitedEmail then Stop(EmailMismatch)
      else
        var orgId := Trim(row.orgId);
        if orgId == "" then Stop(MissingOrg)
        else
          var callerRole := CallerRole(memberships, orgId, user.id);
          if !IsOrgAdmin(callerRole) then Stop(NotAllowed)
          else Continue(Authorized(req, orgId, callerRole))
  }

  /**
   * An invite only goes out for a pending invite whose stored address is the
   * recipient, sent by an owner or admin of the invite's organisation.
   */
  lemma OnlyOrgAdminsSendInvites(user: AuthUser, body: InviteBody, invites: Invites, memberships: Memberships)
    requires CheckInvite(user, body, invites, memberships).Continue?
    ensures var a := CheckInvite(user, body, invites, memberships).value;
      && a.request.inviteToken in invites
      && Lower(invites[a.request.inviteToken].status) == "pending"
      && a.request.invitedEmail == Lower(invites[a.request.inviteToken].invitedEmail)
      && (a.orgId, user.id) in memberships
      && IsOrgAdmin(Lower(memberships[(a.orgId, user.id)]))
  {
    var r := CheckInvite(user, body, invites, memberships);
    AdminFromChecks(user, NormalizeBody(body), invites, memberships, r.value);
  }

  lemma AdminFromChecks(user: AuthUser, req: InviteRequest, invites: Invites, memberships: Memberships, a: Authorized)
    requires ChecksPass(user, req, invites, memberships)
    requires a.request == req && a.orgId == Trim(invites[req.inviteToken].orgId)
    ensures && a.request.inviteToken in invites
      && Lower(invites[a.request.inviteToken].status) == "pending"
      && a.request.invitedEmail == Lower(invites[a.request.inviteToken].invitedEmail)
      && (a.orgId, user.id) in memberships
      && IsOrgAdmin(Lower(memberships[(a.orgId, user.id)]))
  {
  }

  /** A request missing a field is refused before either table is consulted. */
  lemma FieldsCheckedBeforeLookup(user: AuthUser, body: InviteBody, invites: Invites, invites': Invites,
                                  memberships: Memberships, memberships': Memberships)
    requires var req := NormalizeBody(body); req.invitedEmail == "" || req.inviteLink == "" || req.inviteToken == ""
    ensures CheckInvite(user, body, invites, memberships) == CheckInvite(user, body, invites', memberships')
  {
  }

  // ---------------------------------------------------------------------
  // The message

  /** `role === "admin" ? "Admin" : "User"` on the normalised role. */
  function SafeRole(role: string): (r: string)
    ensures r == "Admin" <==> role == "admin"
    ensures r == "Admin" || r == "User"
  {
    if role == "admin" then "Admin" else "User"
  }

  /** Only a body role that trims and lower-cases to "admin" is shown as "Admin"; a missing role reads "User". */
  lemma SafeRoleOfBody(body: InviteBody)
    ensures SafeRole(NormalizeBody(body).role) == "Admin" <==> Lower(Trim(body.role)) == "admin"
    ensures body.role == "" ==> SafeRole(NormalizeBody(body).role) == "User"
  {
    if body.role == "" {
      UserIsCanonical();
      assert DefaultRole[0] != "admin"[0];
    }
  }

  /** `raw[i]` opens a match of `<([^>]+)>` whose group is `inner`. */
  predicate AngleMatchAt(raw: string, i: int, inner: string) {
    && 0 <= i && i + |inner| + 2 <= |raw|
    && raw[i] == '<' && inner != [] && '>' !in inner
    && raw[i + 1..i + 1 + |inner|] == inner && raw[i + 1 + |inner|] == '>'
  }

  /** The first `>` at or after `j`. */
  function CloseAt(raw: string, j: nat): (r: Option<nat>)
    requires j <= |raw|
    decreases |raw| - j
    ensures r.Some? ==> j <= r.value < |raw| && raw[r.value] == '>' && '>' !in raw[j..r.value]
    ensures r.None? ==> '>' !in raw[j..]
  {
    if j == |raw| then None
    else if raw[j] == '>' then Some(j)
    else
      var r := CloseAt(raw, j + 1);
      assert raw[j..] == [raw[j]] + raw[j + 1..];
      if r.Some? then assert raw[j..r.value] == [raw[j]] + raw[j + 1..r.value]; r else r
  }

  lemma {:induction false} CloseAtIs(raw: string, j: nat, k: nat)
    requires j <= k < |raw| && raw[k] == '>' && '>' !in raw[j..k]
    decreases k - j
    ensures CloseAt(raw, j) == Some(k)
  {
    if j < k {
      assert raw[j] == raw[j..k][0];
      assert raw[j + 1..k] == raw[j..k][1..];
      CloseAtIs(raw, j + 1, k);
    }
  }

  lemma MatchNeedsClose(raw: string, i: int, inner: string)
    requires AngleMatchAt(raw, i, inner)
    ensures CloseAt(raw, i + 1) == Some(i + 1 + |inner|)
  {
    CloseAtIs(raw, i + 1, i + 1 + |inner|);
  }


  /** The leftmost match of `<([^>]+)>` at or after `i`, as its position and group. */
  function FirstAngleMatch(raw: string, i: nat): (r: Option<(nat, string)>)
    decreases |raw| - i
    ensures r.Some? ==> i <= r.value.0 && AngleMatchAt(raw, r.value.0, r.value.1)
    ensures r.Some? ==> forall k, inner :: i <= k < r.value.0 ==> !AngleMatchAt(raw, k, inner)
    ensures r.None? ==> forall k, inner :: i <= k ==> !AngleMatchAt(raw, k, inner)
  {
    if i >= |raw| then None
    else
      var c := CloseAt(raw, i + 1);
      if raw[i] == '<' && c.Some? && c.value > i + 1 then
        Some((i, raw[i + 1..c.value]))
      else
        NoMatchAt(raw, i);
        FirstAngleMatch(raw, i + 1)
  }

  lemma NoMatchAt(raw: string, i: nat)
    requires i < |raw|
    requires !(raw[i] == '<' && CloseAt(raw, i + 1).Some? && CloseAt(raw, i + 1).value > i + 1)
    ensures forall inner :: !AngleMatchAt(raw, i, inner)
  {
    forall inner | AngleMatchAt(raw, i, inner)
      ensures false
    {
      MatchNeedsClose(raw, i, inner);
    }
  }

  /** The sender address: the trimmed group of the first `<...>` in the trimmed sender, else the trimmed sender. */
  function FromEmail(from: string): string {
    var raw := Trim(from);
    match FirstAngleMatch(raw, 0)
    case Some((_, inner)) => Trim(inner)
    case None => Trim(raw)
  }

  /** A bare address is used as it is, trimmed. */
  lemma FromEmailBare(from: string)
    requires '<' !in from
    ensures FromEmail(from) == Trim(from)
  {
    TrimKeepsAbsent(from, '<');
    TrimIdempotent(from);
  }

  /** Trimming only removes characters. */
  lemma TrimKeepsAbsent(s: string, c: char)
    requires c !in s
    ensures c !in Trim(s)
  {
    var t := TrimStart(s);
    SliceKeepsAbsent(s, |s| - |t|, |s|, c);
    SliceKeepsAbsent(t, 0, |TrimEnd(t)|, c);
  }

  lemma SliceKeepsAbsent(s: string, i: int, j: int, c: char)
    requires 0 <= i <= j <= |s| && c !in s
    ensures c !in s[i..j]
  {
    forall k | 0 <= k < j - i
      ensures s[i..j][k] != c
    {
      assert s[i..j][k] == s[i + k];
    }
  }


  /** `Name <address>` sends from the address inside the brackets. */
  lemma FromEmailNamed(name: string, address: string)
    requires '<' !in name && '>' !in address && address != []
    requires name == [] || !IsSpace(name[0])
    ensures FromEmail(name + "<" + address + ">") == Trim(address)
  {
    var raw := name + "<" + address + ">";
    assert raw[0] == (if name == [] then '<' else name[0]);
    assert raw[|raw| - 1] == '>';
    assert Trim(raw) == raw;
    NamedSenderMatch(name, address);
    assert FirstAngleMatch(Trim(raw), 0) == Some((|name|, address));
  }

  /** In `name<address>` the first match is the bracketed address. */
  lemma NamedSenderMatch(name: string, address: string)
    requires '<' !in name && '>' !in address && address != []
    ensures FirstAngleMatch(name + "<" + address + ">", 0) == Some((|name|, address))
  {
    var raw := name + "<" + address + ">";
    NamedSenderLayout(name, address);
    var m := FirstAngleMatch(raw, 0);
    assert m.Some?;
    assert m.value.0 == |name|;
    AngleMatchUnique(raw, |name|, m.value.1, address);
  }

  lemma NamedSenderLayout(name: string, address: string)
    requires '<' !in name && '>' !in address && address != []
    ensures var raw := name + "<" + address + ">";
      && AngleMatchAt(raw, |name|, address)
      && forall k :: 0 <= k < |name| ==> raw[k] != '<'
  {
    var raw := name + "<" + address + ">";
    var p := |name|;
    assert raw[p + 1..p + 1 + |address|] == address;
    assert forall k :: 0 <= k < p ==> raw[k] == name[k];
  }

  /** At most one group matches at a given position. */
  lemma AngleMatchUnique(raw: string, i: int, a: string, b: string)
    requires AngleMatchAt(raw, i, a) && AngleMatchAt(raw, i, b)
    ensures a == b
  {
    MatchNeedsClose(raw, i, a);
    MatchNeedsClose(raw, i, b);
  }

  /** Whether `c` matches the pattern letter `l` under the `i` flag (ASCII letters only). */
  predicate SameLetter(c: char, l: char) {
    LowerChar(c) == l
  }

  /** The length of a case-insensitive `https?://` at the start of `link`, if there is one. */
  function SchemeLength(link: string): (r: Option<nat>)
    ensures r.Some? ==> (r.value == 7 || r.value == 8) && r.value <= |link| && link[r.value - 3..r.value] == "://"
  {
    if |link| >= 8 && SameLetter(link[0], 'h') && SameLetter(link[1], 't') && SameLetter(link[2], 't')
       && SameLetter(link[3], 'p') && SameLetter(link[4], 's') && link[5..8] == "://" then Some(8)
    else if |link| >= 7 && SameLetter(link[0], 'h') && SameLetter(link[1], 't') && SameLetter(link[2], 't')
       && SameLetter(link[3], 'p') && link[4..7] == "://" then Some(7)
    else None
  }

  /** The first `/` at or after `j`, or the end. */
  function HostEnd(link: string, j: nat): (r: nat)
    requires j <= |link|
    decreases |link| - j
    ensures j <= r <= |link| && '/' !in link[j..r] && (r == |link| || link[r] == '/')
  {
    if j == |link| || link[j] == '/' then j
    else
      var r := HostEnd(link, j + 1);
      assert link[j..r] == [link[j]] + link[j + 1..r];
      r
  }

  lemma {:induction false} HostEndIs(link: string, j: nat, k: nat)
    requires j <= k <= |link| && '/' !in link[j..k] && (k == |link| || link[k] == '/')
    decreases k - j
    ensures HostEnd(link, j) == k
  {
    if j < k {
      assert link[j] == link[j..k][0];
      assert link[j + 1..k] == link[j..k][1..];
      HostEndIs(link, j + 1, k);
    }
  }

  /**
   * `appUrl ? link.replace(/^https?:\/\/[^/]+/i, appUrl) : link`: the scheme
   * and host of the link give way to `appUrl` and the path is kept.
   */
  function EffectiveLink(link: string, appUrl: string): string {
    if appUrl == "" then link
    else match SchemeLength(link)
      case None => link
      case Some(n) =>
        var end := HostEnd(link, n);
        if end == n then link else appUrl + link[end..]
  }

  /** Without `appUrl`, the link is sent as given. */
  lemma EffectiveLinkWithoutAppUrl(link: string)
    ensures EffectiveLink(link, "") == link
  {
  }

  /** `scheme` is a whole match of `https?://` under the `i` flag. */
  predicate HttpScheme(scheme: string) {
    && (|scheme| == 7 || |scheme| == 8)
    && SameLetter(scheme[0], 'h') && SameLetter(scheme[1], 't') && SameLetter(scheme[2], 't')
    && SameLetter(scheme[3], 'p')
    && (|scheme| == 8 ==> SameLetter(scheme[4], 's'))
    && scheme[|scheme| - 3..] == "://"
  }

  /** What `SchemeLength` finds is a scheme prefix. */
  lemma SchemeLengthIsScheme(link: string)
    requires SchemeLength(link).Some?
    ensures HttpScheme(link[..SchemeLength(link).value])
  {
    var n := SchemeLength(link).value;
    assert link[..n][n - 3..] == link[n - 3..n];
  }

  /** A scheme prefix is what `SchemeLength` finds. */
  lemma SchemeFound(scheme: string, rest: string)
    requires HttpScheme(scheme)
    ensures SchemeLength(scheme + rest) == Some(|scheme|)
  {
    var link := scheme + rest;
    var n := |scheme|;
    assert link[..n] == scheme;
    assert link[n - 3..n] == scheme[n - 3..];
    if n == 7 {
      assert link[4] == ':';
      assert !SameLetter(':', 's');
    }
  }

  /** A link that does not start with a case-insensitive `http://` or `https://` is kept as it is. */
  lemma EffectiveLinkWithoutOrigin(link: string, appUrl: string)
    requires forall n :: 0 <= n <= |link| ==> !HttpScheme(link[..n])
    ensures EffectiveLink(link, appUrl) == link
  {
    if appUrl != "" && SchemeLength(link).Some? {
      SchemeLengthIsScheme(link);
      assert false;
    }
  }

  /** A scheme followed directly by `/`, or by nothing, has no host to replace, so the link is kept. */
  lemma EffectiveLinkWithoutHost(scheme: string, path: string, appUrl: string)
    requires HttpScheme(scheme)
    requires path == [] || path[0] == '/'
    ensures EffectiveLink(scheme + path, appUrl) == scheme + path
  {
    SchemeFound(scheme, path);
    var link := scheme + path;
    if path != [] {
      assert link[|scheme|] == '/';
    }
  }

  /** A case-insensitive `http(s)://host/path` link keeps its path under `appUrl`. */
  lemma EffectiveLinkRewritesOrigin(scheme: string, host: string, path: string, appUrl: string)
    requires HttpScheme(scheme)
    requires host != [] && '/' !in host
    requires path == [] || path[0] == '/'
    requires appUrl != ""
    ensures EffectiveLink(scheme + host + path, appUrl) == appUrl + path
  {
    var link := scheme + host + path;
    var n := |scheme|;
    assert link == scheme + (host + path);
    SchemeFound(scheme, host + path);
    assert link[n..n + |host|] == host;
    HostEndIs(link, n, n + |host|);
    assert link[n + |host|..] == path;
  }

  /** The fixed text of the handler's own HTML body. */
  datatype MailPart = Opening | AfterRole | AfterHref | Closing

  function MailPartText(p: MailPart): string {
    match p
    case Opening => @"
      <div style=""font-family:Arial,Helvetica,sans-serif;font-size:14px;line-height:1.5;color:#111;"">
        <h2 style=""margin:0 0 12px;"">You’ve been invited to SpendNote</h2>
        <p style=""margin:0 0 12px;"">You were invited as <strong>"
    case AfterRole => @"</strong>.</p>
        <p style=""margin:0 0 16px;"">Click this link to accept:</p>
        <p style=""margin:0 0 16px;""><a href="""
    case AfterHref => @""">"
    case Closing => @"</a></p>
        <p style=""margin:0;color:#6b7280;"">If you didn’t expect this invite, you can ignore this email.</p>
      </div>
    "
  }

  /** The handler's HTML: the role label, then the link as the anchor's target and text, neither escaped. */
  function InviteMail(safeRole: string, link: string): (r: Template<MailPart>)
    ensures WellFormed(r) && r.values == [safeRole, link, link]
  {
    Template([[Opening], [AfterRole], [AfterHref], [Closing]], [safeRole, link, link])
  }

  lemma {:induction false} InviteMailRender(safeRole: string, link: string, text: MailPart -> string)
    ensures Render(InviteMail(safeRole, link), text)
         == text(Opening) + safeRole + text(AfterRole) + link + text(AfterHref) + link + text(Closing)
  {
    var t1 := Template([[Closing]], []);
    var t2 := Template([[AfterHref], [Closing]], [link]);
    var t3 := Template([[AfterRole], [AfterHref], [Closing]], [link, link]);
    var t4 := InviteMail(safeRole, link);
    assert [Closing][1..] == [] && [AfterHref][1..] == [] && [AfterRole][1..] == [] && [Opening][1..] == [];
    assert Render(t1, text) == text(Closing);
    assert Render(t2, text) == text(AfterHref) + link + Render(t1, text);
    assert Render(t3, text) == text(AfterRole) + link + Render(t2, text);
    assert Render(t4, text) == text(Opening) + safeRole + Render(t3, text);
  }

  /** The `SendEmailCommand`: sender, the one recipient, subject and HTML body. */
  datatype SendRequest = SendRequest(source: string, to: string, subject: string, html: Template<MailPart>)

  const DefaultFrom := "no-reply@spendnote.app"
  const DefaultSubject := "You have been invited to SpendNote"

  function ComposeMail(env: InviteEnv, a: Authorized): SendRequest {
    SendRequest(
      FromEmail(Or(env.emailFrom, DefaultFrom)),
      a.request.invitedEmail,
      Or(env.inviteSubject, DefaultSubject),
      InviteMail(SafeRole(a.request.role), EffectiveLink(a.request.inviteLink, env.appUrl)))
  }

  // ---------------------------------------------------------------------
  // The handler

  /**
   * Everything up to the send: OPTIONS, the three secret checks, the caller,
   * then the invite checks. There is no method check besides OPTIONS.
   */
  function PrepareInvite(httpMethod: string, env: InviteEnv, user: Option<AuthUser>, body: InviteBody,
                         invites: Invites, memberships: Memberships): (r: Flow<SendRequest>)
    ensures r.Stop? ==> r.response != Success
    ensures httpMethod == "OPTIONS" ==> r == Stop(Preflight)
    ensures httpMethod != "OPTIONS" && (env.supabaseUrl == "" || env.supabaseAnonKey == "") ==>
      r == Stop(Failure(500, "Missing SUPABASE_URL / SUPABASE_ANON_KEY"))
    ensures httpMethod != "OPTIONS" && env.supabaseUrl != "" && env.supabaseAnonKey != "" && env.serviceRoleKey == "" ==>
      r == Stop(Failure(500, "Missing SUPABASE_SERVICE_ROLE_KEY secret"))
    ensures httpMethod != "OPTIONS" && env.supabaseUrl != "" && env.supabaseAnonKey != "" && env.serviceRoleKey != ""
            && MissingAws(env) != [] ==>
      r == Stop(Failure(500, "Missing AWS SES secrets: " + Join(MissingAws(env), ", ")))
    ensures httpMethod != "OPTIONS" && env.supabaseUrl != "" && env.supabaseAnonKey != "" && env.serviceRoleKey != ""
            && MissingAws(env) == [] && user.None? ==>
      r == Stop(NotAuthenticated)
    ensures httpMethod != "OPTIONS" && env.supabaseUrl != "" && env.supabaseAnonKey != "" && env.serviceRoleKey != ""
            && MissingAws(env) == [] && user.Some? ==>
      match CheckInvite(user.value, body, invites, memberships)
      case Stop(response) => r == Stop(response)
      case Continue(a) => r == Continue(ComposeMail(env, a))
  {
    if httpMethod == "OPTIONS" then Stop(Preflight)
    else if env.supabaseUrl == "" || env.supabaseAnonKey == "" then
      Stop(Failure(500, "Missing SUPABASE_URL / SUPABASE_ANON_KEY"))
    else if env.serviceRoleKey == "" then Stop(Failure(500, "Missing SUPABASE_SERVICE_ROLE_KEY secret"))
    else if MissingAws(env) != [] then Stop(Failure(500, "Missing AWS SES secrets: " + Join(MissingAws(env), ", ")))
    else if user.None? then Stop(NotAuthenticated)
    else match CheckInvite(user.value, body, invites, memberships)
      case Stop(response) => Stop(response)
      case Continue(a) => Continue(ComposeMail(env, a))
  }

  /** The answer once the mail service has accepted (`sendOk`) or refused the message. */
  function InviteResponse(httpMethod: string, env: InviteEnv, user: Option<AuthUser>, body: InviteBody,
                          invites: Invites, memberships: Memberships, sendOk: bool): (r: Response)
    ensures r == Success <==> PrepareInvite(httpMethod, env, user, body, invites, memberships).Continue? && sendOk
    ensures PrepareInvite(httpMethod, env, user, body, invites, memberships).Continue? && !sendOk ==>
      r == Failure(502, "Failed to send")
    ensures PrepareInvite(httpMethod, env, user, body, invites, memberships).Stop? ==>
      r == PrepareInvite(httpMethod, env, user, body, invites, memberships).response
  {
    var prepared := PrepareInvite(httpMethod, env, user, body, invites, memberships);
    if prepared.Stop? then prepared.response
    else if sendOk then Success
    else Failure(502, "Failed to send")
  }

  /** A successful answer means a mail went to the invite's own address, on behalf of an admin of its organisation. */
  lemma SuccessOnlyForAdmins(httpMethod: string, env: InviteEnv, user: Option<AuthUser>, body: InviteBody,
                             invites: Invites, memberships: Memberships, sendOk: bool)
    requires InviteResponse(httpMethod, env, user, body, invites, memberships, sendOk) == Success
    ensures user.Some? && ChecksPass(user.value, NormalizeBody(body), invites, memberships)
    ensures var m := PrepareInvite(httpMethod, env, user, body, invites, memberships).value;
      && m.to == Lower(invites[NormalizeBody(body).inviteToken].invitedEmail)
      && m.html.values == [SafeRole(NormalizeBody(body).role), EffectiveLink(NormalizeBody(body).inviteLink, env.appUrl),
                           EffectiveLink(NormalizeBody(body).inviteLink, env.appUrl)]
  {
  }

  /** The answer as one chain of checks, in the handler's order. */
  lemma InviteResponseSteps(httpMethod: string, env: InviteEnv, user: Option<AuthUser>, body: InviteBody,
                            invites: Invites, memberships: Memberships, sendOk: bool)
    ensures InviteResponse(httpMethod, env, user, body, invites, memberships, sendOk)
         == if httpMethod == "OPTIONS" then Preflight
            else if env.supabaseUrl == "" || env.supabaseAnonKey == "" then Failure(500, "Missing SUPABASE_URL / SUPABASE_ANON_KEY")
            else if env.serviceRoleKey == "" then Failure(500, "Missing SUPABASE_SERVICE_ROLE_KEY secret")
            else if MissingAws(env) != [] then Failure(500, "Missing AWS SES secrets: " + Join(MissingAws(env), ", "))
            else if user.None? then NotAuthenticated
            else if CheckInvite(user.value, body, invites, memberships).Stop? then CheckInvite(user.value, body, invites, memberships).response
            else if sendOk then Success
            else Failure(502, "Failed to send")
  {
  }

  /** The handler, with the secret list built as the source builds it. */
  method HandleInvite(httpMethod: string, env: InviteEnv, user: Option<AuthUser>, body: InviteBody,
                      invites: Invites, memberships: Memberships, sendOk: bool) returns (response: Response)
    ensures response == InviteResponse(httpMethod, env, user, body, invites, memberships, sendOk)
  {
    InviteResponseSteps(httpMethod, env, user, body, invites, memberships, sendOk);
    if httpMethod == "OPTIONS" {
      return Preflight;
    }
    if env.supabaseUrl == "" || env.supabaseAnonKey == "" {
      return Failure(500, "Missing SUPABASE_URL / SUPABASE_ANON_KEY");
    }
    if env.serviceRoleKey == "" {
      return Failure(500, "Missing SUPABASE_SERVICE_ROLE_KEY secret");
    }
    var missingAws := CollectMissingAws(env);
    if |missingAws| > 0 {
      return Failure(500, "Missing AWS SES secrets: " + Join(missingAws, ", "));
    }
    if user.None? {
      return NotAuthenticated;
    }
    var checked := CheckInvite(user.value, body, invites, memberships);
    if checked.Stop? {
      return checked.response;
    }
    response := if sendOk then Success else Failure(502, "Failed to send");
  }
}
