/**
 * The shared e-mail templates: the `esc` HTML escaper and the four renderers.
 * A template literal is modelled as its fixed segments and the values
 * interpolated between them, so that "user input reaches the HTML only
 * through `esc`" is a statement about the values.
 */
module EmailTemplates {
  import opened Text
  import opened Templating

  // ---------------------------------------------------------------------
  // esc

  /** `s.replace(/c/g, rep)` for a single-character pattern. */
  function ReplaceChar(s: string, c: char, rep: string): string
  {
    if s == [] then []
    else (if s[0] == c then rep else [s[0]]) + ReplaceChar(s[1..], c, rep)
  }

  /** Replacing distributes over concatenation. */
  lemma {:induction false} ReplaceCharAppend(a: string, b: string, c: char, rep: string)
    ensures ReplaceChar(a + b, c, rep) == ReplaceChar(a, c, rep) + ReplaceChar(b, c, rep)
  {
    if a != [] {
      assert (a + b)[0] == a[0];
      assert (a + b)[1..] == a[1..] + b;
      ReplaceCharAppend(a[1..], b, c, rep);
    } else {
      assert a + b == b;
    }
  }

  /** The five replacements in the order the source applies them, `&` first. */
  function Esc(value: string): string {
    var amp := ReplaceChar(value, '&', "&amp;");
    var lt := ReplaceChar(amp, '<', "&lt;");
    var gt := ReplaceChar(lt, '>', "&gt;");
    var quot := ReplaceChar(gt, '"', "&quot;");
    ReplaceChar(quot, '\'', "&#39;")
  }

  predicate Special(c: char) {
    c == '&' || c == '<' || c == '>' || c == '"' || c == '\''
  }

  /** Nothing in `s` can open a tag or close an attribute value. */
  predicate HtmlSafe(s: string) {
    '<' !in s && '>' !in s && '"' !in s && '\'' !in s
  }

  /** The entity each special character becomes. */
  function EscChar(c: char): (r: string)
    ensures HtmlSafe(r)
    ensures !Special(c) ==> r == [c]
    ensures Special(c) ==> |r| > 1 && r[0] == '&'
  {
    match c
    case '&' => "&amp;"
    case '<' => "&lt;"
    case '>' => "&gt;"
    case '"' => "&quot;"
    case '\'' => "&#39;"
    case _ => [c]
  }

  /** Reference escaper: every character escaped once, independently. */
  function EscapeEach(s: string): (r: string)
    ensures HtmlSafe(r)
  {
    if s == [] then [] else EscChar(s[0]) + EscapeEach(s[1..])
  }

  lemma {:induction false} EscAppend(a: string, b: string)
    ensures Esc(a + b) == Esc(a) + Esc(b)
  {
    ReplaceCharAppend(a, b, '&', "&amp;");
    var a1, b1 := ReplaceChar(a, '&', "&amp;"), ReplaceChar(b, '&', "&amp;");
    ReplaceCharAppend(a1, b1, '<', "&lt;");
    var a2, b2 := ReplaceChar(a1, '<', "&lt;"), ReplaceChar(b1, '<', "&lt;");
    ReplaceCharAppend(a2, b2, '>', "&gt;");
    var a3, b3 := ReplaceChar(a2, '>', "&gt;"), ReplaceChar(b2, '>', "&gt;");
    ReplaceCharAppend(a3, b3, '"', "&quot;");
    var a4, b4 := ReplaceChar(a3, '"', "&quot;"), ReplaceChar(b3, '"', "&quot;");
    ReplaceCharAppend(a4, b4, '\'', "&#39;");
  }

  lemma {:induction false} ReplaceCharAbsent(s: string, c: char, rep: string)
    requires c !in s
    ensures ReplaceChar(s, c, rep) == s
  {
    if s != [] {
      assert s[0] != c && s[1..] + [] == s[1..];
      ReplaceCharAbsent(s[1..], c, rep);
      assert [s[0]] + s[1..] == s;
    }
  }

  lemma ReplaceCharOne(c: char, x: char, rep: string)
    ensures ReplaceChar([c], x, rep) == if c == x then rep else [c]
  {
    assert [c][1..] == [];
  }

  /** The four replacements after the first, on a string with none of their characters. */
  lemma {:induction false} LaterStepsKeep(s: string)
    requires '<' !in s && '>' !in s && '"' !in s && '\'' !in s
    ensures ReplaceChar(ReplaceChar(ReplaceChar(ReplaceChar(s, '<', "&lt;"), '>', "&gt;"), '"', "&quot;"), '\'', "&#39;") == s
  {
    ReplaceCharAbsent(s, '<', "&lt;");
    ReplaceCharAbsent(s, '>', "&gt;");
    ReplaceCharAbsent(s, '"', "&quot;");
    ReplaceCharAbsent(s, '\'', "&#39;");
  }

  /** An ordinary character passes all five replacements unchanged. */
  lemma EscPlainChar(c: char)
    requires !Special(c)
    ensures Esc([c]) == [c]
  {
    ReplaceCharAbsent([c], '&', "&amp;");
    LaterStepsKeep([c]);
  }

  /** `&` becomes `&amp;`, which the later replacements leave alone. */
  lemma EscAmpersand()
    ensures Esc("&") == EscChar('&')
  {
    ReplaceCharOne('&', '&', EscChar('&'));
    LaterStepsKeep(EscChar('&'));
  }

  /** The last replacement leaves a safe string alone. */
  lemma ApostropheStepKeeps(s: string)
    requires HtmlSafe(s)
    ensures ReplaceChar(s, '\'', "&#39;") == s
  {
    ReplaceCharAbsent(s, '\'', "&#39;");
  }

  /** The last two replacements leave a safe string alone. */
  lemma QuoteStepsKeep(s: string)
    requires HtmlSafe(s)
    ensures ReplaceChar(ReplaceChar(s, '"', "&quot;"), '\'', "&#39;") == s
  {
    ReplaceCharAbsent(s, '"', "&quot;");
    ApostropheStepKeeps(s);
  }

  /** The last three replacements leave a safe string alone. */
  lemma GreaterStepsKeep(s: string)
    requires HtmlSafe(s)
    ensures ReplaceChar(ReplaceChar(ReplaceChar(s, '>', "&gt;"), '"', "&quot;"), '\'', "&#39;") == s
  {
    ReplaceCharAbsent(s, '>', "&gt;");
    QuoteStepsKeep(s);
  }

  /** `<` becomes `&lt;`, which the later replacements leave alone. */
  lemma EscLess()
    ensures Esc("<") == EscChar('<')
  {
    ReplaceCharOne('<', '&', "&amp;");
    ReplaceCharOne('<', '<', EscChar('<'));
    GreaterStepsKeep(EscChar('<'));
  }

  /** `>` becomes `&gt;`, which the later replacements leave alone. */
  lemma EscGreater()
    ensures Esc(">") == EscChar('>')
  {
    ReplaceCharOne('>', '&', "&amp;");
    ReplaceCharOne('>', '<', "&lt;");
    ReplaceCharOne('>', '>', EscChar('>'));
    QuoteStepsKeep(EscChar('>'));
  }

  /** `"` becomes `&quot;`, which the last replacement leaves alone. */
  lemma EscQuote()
    ensures Esc("\"") == EscChar('"')
  {
    ReplaceCharOne('"', '&', "&amp;");
    ReplaceCharOne('"', '<', "&lt;");
    ReplaceCharOne('"', '>', "&gt;");
    ReplaceCharOne('"', '"', EscChar('"'));
    ApostropheStepKeeps(EscChar('"'));
  }

  /** `'` is replaced last, by `&#39;`. */
  lemma EscApostrophe()
    ensures Esc("'") == EscChar('\'')
  {
    ReplaceCharOne('\'', '&', "&amp;");
    ReplaceCharOne('\'', '<', "&lt;");
    ReplaceCharOne('\'', '>', "&gt;");
    ReplaceCharOne('\'', '"', "&quot;");
    ReplaceCharOne('\'', '\'', EscChar('\''));
  }

  /** A character the chain replaces after `&` becomes its entity, which no later step touches. */
  lemma EscMarkupChar(c: char)
    requires Special(c) && c != '&'
    ensures Esc([c]) == EscChar(c)
  {
    if c == '<' {
      EscLess();
    } else if c == '>' {
      EscGreater();
    } else if c == '"' {
      EscQuote();
    } else {
      EscApostrophe();
    }
  }


  /** One character goes through the chain to its own entity: no entity is escaped twice. */
  lemma EscOne(c: char)
    ensures Esc([c]) == EscChar(c)
  {
    if !Special(c) {
      EscPlainChar(c);
    } else if c == '&' {
      EscAmpersand();
    } else {
      EscMarkupChar(c);
    }
  }

  /** The replace chain escapes each character exactly once. */
  lemma {:induction false} EscIsEscapeEach(s: string)
    ensures Esc(s) == EscapeEach(s)
  {
    if s != [] {
      assert s == [s[0]] + s[1..];
      EscAppend([s[0]], s[1..]);
      EscOne(s[0]);
      EscIsEscapeEach(s[1..]);
    }
  }

  /** Escaped output contains no `<`, `>`, `"` or `'`. */
  lemma {:induction false} EscIsSafe(s: string)
    ensures HtmlSafe(Esc(s))
  {
    EscIsEscapeEach(s);
  }

  /** A string without special characters is returned unchanged. */
  lemma {:induction false} EscKeepsPlainText(s: string)
    requires forall i :: 0 <= i < |s| ==> !Special(s[i])
    ensures Esc(s) == s
  {
    EscIsEscapeEach(s);
    PlainEscapesToItself(s);
  }

  lemma {:induction false} PlainEscapesToItself(s: string)
    requires forall i :: 0 <= i < |s| ==> !Special(s[i])
    ensures EscapeEach(s) == s
  {
    if s != [] {
      PlainEscapesToItself(s[1..]);
    }
  }

  /** Decodes the five entities `esc` introduces, left to right. */
  function Unescape(s: string): string {
    if s == [] then []
    else if |s| >= 5 && s[..5] == "&amp;" then "&" + Unescape(s[5..])
    else if |s| >= 4 && s[..4] == "&lt;" then "<" + Unescape(s[4..])
    else if |s| >= 4 && s[..4] == "&gt;" then ">" + Unescape(s[4..])
    else if |s| >= 6 && s[..6] == "&quot;" then "\"" + Unescape(s[6..])
    else if |s| >= 5 && s[..5] == "&#39;" then "'" + Unescape(s[5..])
    else [s[0]] + Unescape(s[1..])
  }

  /** `s` cannot start with `p`: they differ at position `i`. */
  lemma PrefixDiffers(s: string, p: string, i: nat)
    requires i < |p| && i < |s| && s[i] != p[i]
    ensures !(|s| >= |p| && s[..|p|] == p)
  {
    if |s| >= |p| {
      assert s[..|p|][i] == s[i];
    }
  }

  /** Each entity decodes back to its character; any other character decodes to itself. */
  lemma {:induction false} UnescapeEntity(c: char, rest: string)
    ensures Unescape(EscChar(c) + rest) == [c] + Unescape(rest)
  {
    var e := EscChar(c);
    var s := e + rest;
    assert s[..|e|] == e && s[|e|..] == rest;
    if !Special(c) {
      assert s[0] == c;
      PrefixDiffers(s, "&amp;", 0);
      PrefixDiffers(s, "&lt;", 0);
      PrefixDiffers(s, "&gt;", 0);
      PrefixDiffers(s, "&quot;", 0);
      PrefixDiffers(s, "&#39;", 0);
    } else if c != '&' {
      assert s[1] == e[1];
      PrefixDiffers(s, "&amp;", 1);
      if c != '<' {
        PrefixDiffers(s, "&lt;", 1);
        if c != '>' {
          PrefixDiffers(s, "&gt;", 1);
          if c != '"' {
            PrefixDiffers(s, "&quot;", 1);
          }
        }
      }
    }
  }

  /** Decoding inverts escaping. */
  lemma {:induction false} EscRoundTrip(s: string)
    ensures Unescape(Esc(s)) == s
  {
    EscIsEscapeEach(s);
    UnescapeEscapeEach(s);
  }

  lemma {:induction false} UnescapeEscapeEach(s: string)
    ensures Unescape(EscapeEach(s)) == s
  {
    if s != [] {
      UnescapeEntity(s[0], EscapeEach(s[1..]));
      UnescapeEscapeEach(s[1..]);
    }
  }

  // ---------------------------------------------------------------------
  // Renderers

  /** What a renderer returns; `html` and `text` are the template literals before rendering. */
  datatype EmailTemplate = EmailTemplate(subject: string, html: Template<Fragment>, text: Template<Fragment>)

  function Html(t: EmailTemplate): string {
    Render(t.html, FragmentText)
  }

  function PlainText(t: EmailTemplate): string {
    Render(t.text, FragmentText)
  }

  /** `appCard`: the body spliced into the shared frame under a fixed title and subtitle. */
  function Card(title: Fragment, subtitle: Fragment, body: Template<Fragment>): (r: Template<Fragment>)
    ensures r.values == body.values
    ensures WellFormed(body) ==> WellFormed(r)
  {
    Append(Prepend([CardHead, title, CardAfterTitle, subtitle, CardAfterSubtitle], body), [CardFoot])
  }

  /**
   * The spliced frame renders as the source's frame with the rendered body
   * interpolated, whatever the fragments read.
   */
  lemma {:induction false} CardRender(title: Fragment, subtitle: Fragment, body: Template<Fragment>, text: Fragment -> string)
    requires WellFormed(body)
    ensures Render(Card(title, subtitle, body), text)
         == Render(Template([[CardHead], [CardAfterTitle], [CardAfterSubtitle], [CardFoot]],
                            [text(title), text(subtitle), Render(body, text)]), text)
  {
    var prefix := [CardHead, title, CardAfterTitle, subtitle, CardAfterSubtitle];
    var r := Render(body, text);
    SpliceRender(prefix, body, [CardFoot], text);
    OneValueRender(prefix, r, CardFoot, text);
    FixedTextOfFive(CardHead, title, CardAfterTitle, subtitle, CardAfterSubtitle, text);
    FrameRender(title, subtitle, r, text);
  }

  /** A two-segment template: the prefix, the value, then one closing fragment. */
  lemma OneValueRender(prefix: seq<Fragment>, r: string, last: Fragment, text: Fragment -> string)
    ensures Render(Template([prefix, [last]], [r]), text) == FixedText(prefix, text) + r + text(last)
  {
    FixedTextOne(last, text);
    assert Render(Template([[last]], []), text) == FixedText([last], text);
  }

  /** The frame's four segments around the title, the subtitle and the body. */
  lemma FrameRender(title: Fragment, subtitle: Fragment, r: string, text: Fragment -> string)
    ensures Render(Template([[CardHead], [CardAfterTitle], [CardAfterSubtitle], [CardFoot]], [text(title), text(subtitle), r]), text)
         == text(CardHead) + text(title) + text(CardAfterTitle) + text(subtitle) + text(CardAfterSubtitle) + r + text(CardFoot)
  {
    FixedTextOne(CardHead, text);
    FixedTextOne(CardAfterTitle, text);
    FixedTextOne(CardAfterSubtitle, text);
    FixedTextOne(CardFoot, text);
    var t1 := Template([[CardFoot]], []);
    var t2 := Template([[CardAfterSubtitle], [CardFoot]], [r]);
    var t3 := Template([[CardAfterTitle], [CardAfterSubtitle], [CardFoot]], [text(subtitle), r]);
    var t4 := Template([[CardHead], [CardAfterTitle], [CardAfterSubtitle], [CardFoot]], [text(title), text(subtitle), r]);
    assert Render(t1, text) == text(CardFoot);
    assert Render(t2, text) == text(CardAfterSubtitle) + r + Render(t1, text);
    assert Render(t3, text) == text(CardAfterTitle) + text(subtitle) + Render(t2, text);
    assert Render(t4, text) == text(CardHead) + text(title) + Render(t3, text);
  }


  lemma FixedTextOne(f: Fragment, text: Fragment -> string)
    ensures FixedText([f], text) == text(f)
  {
    assert [f][1..] == [];
  }

  lemma FixedTextCons(f: Fragment, fs: seq<Fragment>, text: Fragment -> string)
    ensures FixedText([f] + fs, text) == text(f) + FixedText(fs, text)
  {
    assert ([f] + fs)[0] == f && ([f] + fs)[1..] == fs;
  }

  lemma {:induction false} FixedTextOfFive(a: Fragment, b: Fragment, c: Fragment, d: Fragment, e: Fragment, text: Fragment -> string)
    ensures FixedText([a, b, c, d, e], text) == text(a) + text(b) + text(c) + text(d) + text(e)
  {
    assert [a, b, c, d, e] == [a] + ([b] + ([c] + ([d] + [e])));
    FixedTextOne(e, text);
    FixedTextCons(d, [e], text);
    FixedTextCons(c, [d] + [e], text);
    FixedTextCons(b, [c] + ([d] + [e]), text);
    FixedTextCons(a, [b] + ([c] + ([d] + [e])), text);
  }

  /** `String(s || d).trim() || d`: a blank name gives the default, any other name is trimmed. */
  function NameOr(s: string, d: string): (r: string)
    ensures !Blank(s) ==> r == Trim(s)
    ensures Blank(s) && (d == [] || (!IsSpace(d[0]) && !IsSpace(d[|d| - 1]))) ==> r == d
  {
    if s == "" then (var t := Trim(d); if t == "" then d else t)
    else (var t := Trim(s); if t == "" then d else t)
  }

  predicate AllSafe(values: seq<string>) {
    forall i :: 0 <= i < |values| ==> HtmlSafe(values[i])
  }


  datatype InviteArgs = InviteArgs(inviterLine: string, role: string, inviteLink: string, subject: string)

  /** The role shown: "Admin" only for exactly "Admin". */
  function RoleLabel(role: string): (r: string)
    ensures r == "Admin" <==> role == "Admin"
    ensures r == "Admin" || r == "User"
    ensures HtmlSafe(r)
  {
    if role == "Admin" then "Admin" else "User"
  }

  /**
   * The invitation: inviter (default "A team member") and link escaped in the
   * HTML, raw in the text; the subject defaults to the invitation line.
   */
  function RenderInvite(args: InviteArgs): (r: EmailTemplate)
    ensures WellFormed(r.html) && WellFormed(r.text)
    ensures r.subject == Or(args.subject, "You have been invited to SpendNote")
    ensures r.html.values
         == [Esc(Or(args.inviterLine, "A team member")), RoleLabel(args.role),
             Esc(args.inviteLink), Esc(args.inviteLink), Esc(args.inviteLink)]
    ensures r.text.values == [args.inviterLine, RoleLabel(args.role), args.inviteLink]
  {
    var inviter := Esc(Or(args.inviterLine, "A team member"));
    var role := RoleLabel(args.role);
    var inviteLink := Esc(Or(args.inviteLink, ""));
    var subject := Or(args.subject, "You have been invited to SpendNote");
    var html := Card(InviteTitle, InviteSubtitle,
                     Template([[InviteBody0], [InviteBody1], [InviteBody2], [InviteBody3], [InviteBody4], [InviteBody5]],
                                   [inviter, role, inviteLink, inviteLink, inviteLink]));
    var text := Template([[InviteText0], [InviteText1], [InviteText2], [InviteText3]],
                              [args.inviterLine, role, args.inviteLink]);
    EmailTemplate(subject, html, text)
  }

  lemma {:induction false} InviteHtmlIsSafe(args: InviteArgs)
    ensures AllSafe(RenderInvite(args).html.values)
  {
    var inviter, link := Or(args.inviterLine, "A team member"), args.inviteLink;
    var role := RoleLabel(args.role);
    assert RenderInvite(args).html.values == [Esc(inviter), role, Esc(link), Esc(link), Esc(link)];
    InviteValuesAreSafe(inviter, role, link);
  }


  datatype WelcomeArgs = WelcomeArgs(fullName: string, loginUrl: string)

  const DefaultLoginUrl := "https://spendnote.app/spendnote-login.html"

  /** The welcome mail: name (default "there") and login URL escaped in the HTML; a fixed subject. */
  function RenderWelcome(args: WelcomeArgs): (r: EmailTemplate)
    ensures WellFormed(r.html) && WellFormed(r.text)
    ensures r.subject == "Welcome to SpendNote"
    ensures r.html.values == [Esc(NameOr(args.fullName, "there")), Esc(Or(args.loginUrl, DefaultLoginUrl))]
    ensures r.text.values == [Or(args.fullName, "there"), args.loginUrl]
  {
    var name := Esc(NameOr(args.fullName, "there"));
    var loginUrl := Esc(Or(args.loginUrl, DefaultLoginUrl));
    var html := Card(WelcomeTitle, WelcomeSubtitle,
                     Template([[WelcomeBody0], [WelcomeBody1], [WelcomeBody2]], [name, loginUrl]));
    var text := Template([[WelcomeText0], [WelcomeText1], [WelcomeText2]], [Or(args.fullName, "there"), args.loginUrl]);
    EmailTemplate("Welcome to SpendNote", html, text)
  }

  lemma {:induction false} WelcomeHtmlIsSafe(args: WelcomeArgs)
    ensures AllSafe(RenderWelcome(args).html.values)
  {
    var name, loginUrl := NameOr(args.fullName, "there"), Or(args.loginUrl, DefaultLoginUrl);
    assert RenderWelcome(args).html.values == [Esc(name), Esc(loginUrl)];
    TwoEscapedAreSafe(name, loginUrl);
  }


  datatype ConfirmationArgs = ConfirmationArgs(fullName: string, confirmUrl: string)

  /** The confirmation mail: name (default "there") and confirmation URL escaped in the HTML; a fixed subject. */
  function RenderConfirmation(args: ConfirmationArgs): (r: EmailTemplate)
    ensures WellFormed(r.html) && WellFormed(r.text)
    ensures r.subject == "Confirm your SpendNote email address"
    ensures r.html.values
         == [Esc(NameOr(args.fullName, "there")), Esc(args.confirmUrl), Esc(args.confirmUrl), Esc(args.confirmUrl)]
    ensures r.text.values == [Or(args.fullName, "there"), args.confirmUrl]
  {
    var name := Esc(NameOr(args.fullName, "there"));
    var confirmUrl := Esc(Or(args.confirmUrl, ""));
    var html := Card(ConfirmTitle, ConfirmSubtitle,
                     Template([[ConfirmBody0], [ConfirmBody1], [ConfirmBody2], [ConfirmBody3], [ConfirmBody4]],
                                   [name, confirmUrl, confirmUrl, confirmUrl]));
    var text := Template([[ConfirmText0], [ConfirmText1], [ConfirmText2]], [Or(args.fullName, "there"), args.confirmUrl]);
    EmailTemplate("Confirm your SpendNote email address", html, text)
  }

  lemma {:induction false} ConfirmationHtmlIsSafe(args: ConfirmationArgs)
    ensures AllSafe(RenderConfirmation(args).html.values)
  {
    var name, confirmUrl := NameOr(args.fullName, "there"), args.confirmUrl;
    assert RenderConfirmation(args).html.values == [Esc(name), Esc(confirmUrl), Esc(confirmUrl), Esc(confirmUrl)];
    ConfirmationValuesAreSafe(name, confirmUrl);
  }


  datatype InviteAcceptedArgs = InviteAcceptedArgs(
    adminName: string, acceptedUserName: string, acceptedUserEmail: string, orgName: string, teamUrl: string)

  const DefaultTeamUrl := "https://spendnote.app/spendnote-team.html"

  /**
   * The notice to the inviting admin: the subject names the new member by
   * name, else e-mail, else "A user"; every HTML value is escaped.
   */
  function RenderInviteAccepted(args: InviteAcceptedArgs): (r: EmailTemplate)
    ensures WellFormed(r.html) && WellFormed(r.text)
    ensures r.subject == Or(Or(args.acceptedUserName, args.acceptedUserEmail), "A user") + " accepted your SpendNote invite"
    ensures r.html.values
         == [Esc(NameOr(args.adminName, "there")), Esc(NameOr(args.acceptedUserName, "A user")),
             Esc(args.acceptedUserEmail), Esc(NameOr(args.orgName, "your team")), Esc(Or(args.teamUrl, DefaultTeamUrl))]
    ensures r.text.values
         == [Or(args.adminName, "there"), Or(args.acceptedUserName, args.acceptedUserEmail),
             Or(args.orgName, "your team"), args.teamUrl]
  {
    var adminName := Esc(NameOr(args.adminName, "there"));
    var acceptedUser := Esc(NameOr(args.acceptedUserName, "A user"));
    var acceptedUserEmail := Esc(Or(args.acceptedUserEmail, ""));
    var orgName := Esc(NameOr(args.orgName, "your team"));
    var teamUrl := Esc(Or(args.teamUrl, DefaultTeamUrl));
    var subject := Or(Or(args.acceptedUserName, args.acceptedUserEmail), "A user") + " accepted your SpendNote invite";
    var html := Card(AcceptedTitle, AcceptedSubtitle,
                     Template([[AcceptedBody0], [AcceptedBody1], [AcceptedBody2], [AcceptedBody3], [AcceptedBody4], [AcceptedBody5]],
                                   [adminName, acceptedUser, acceptedUserEmail, orgName, teamUrl]));
    var text := Template([[AcceptedText0], [AcceptedText1], [AcceptedText2], [AcceptedText3], [AcceptedText4]],
                              [Or(args.adminName, "there"), Or(args.acceptedUserName, args.acceptedUserEmail),
                               Or(args.orgName, "your team"), args.teamUrl]);
    EmailTemplate(subject, html, text)
  }

  lemma {:induction false} InviteAcceptedHtmlIsSafe(args: InviteAcceptedArgs)
    ensures AllSafe(RenderInviteAccepted(args).html.values)
  {
    var admin, user, email := NameOr(args.adminName, "there"), NameOr(args.acceptedUserName, "A user"), args.acceptedUserEmail;
    var org, teamUrl := NameOr(args.orgName, "your team"), Or(args.teamUrl, DefaultTeamUrl);
    assert RenderInviteAccepted(args).html.values == [Esc(admin), Esc(user), Esc(email), Esc(org), Esc(teamUrl)];
    FiveEscapedAreSafe(admin, user, email, org, teamUrl);
  }

  lemma FiveEscapedAreSafe(a: string, b: string, c: string, d: string, e: string)
    ensures AllSafe([Esc(a), Esc(b), Esc(c), Esc(d), Esc(e)])
  {
    EscIsSafe(a);
    EscIsSafe(b);
    EscIsSafe(c);
    EscIsSafe(d);
    EscIsSafe(e);
  }

  lemma InviteValuesAreSafe(inviter: string, role: string, link: string)
    requires HtmlSafe(role)
    ensures AllSafe([Esc(inviter), role, Esc(link), Esc(link), Esc(link)])
  {
    EscIsSafe(inviter);
    EscIsSafe(link);
  }

  lemma ConfirmationValuesAreSafe(name: string, url: string)
    ensures AllSafe([Esc(name), Esc(url), Esc(url), Esc(url)])
  {
    EscIsSafe(name);
    EscIsSafe(url);
  }

  lemma TwoEscapedAreSafe(a: string, b: string)
    ensures AllSafe([Esc(a), Esc(b)])
  {
    EscIsSafe(a);
    EscIsSafe(b);
  }



  // ---------------------------------------------------------------------
  // Fixed text

  /** Every piece of fixed text in the templates, by template and position. */
  datatype Fragment =
      CardHead | CardAfterTitle | CardAfterSubtitle | CardFoot | InviteTitle | InviteSubtitle | WelcomeTitle
    | WelcomeSubtitle | ConfirmTitle | ConfirmSubtitle | AcceptedTitle | AcceptedSubtitle | InviteBody0
    | InviteBody1 | InviteBody2 | InviteBody3 | InviteBody4 | InviteBody5 | WelcomeBody0 | WelcomeBody1
    | WelcomeBody2 | ConfirmBody0 | ConfirmBody1 | ConfirmBody2 | ConfirmBody3 | ConfirmBody4 | AcceptedBody0
    | AcceptedBody1 | AcceptedBody2 | AcceptedBody3 | AcceptedBody4 | AcceptedBody5 | InviteText0
    | InviteText1 | InviteText2 | InviteText3 | WelcomeText0 | WelcomeText1 | WelcomeText2 | ConfirmText0
    | ConfirmText1 | ConfirmText2 | AcceptedText0 | AcceptedText1 | AcceptedText2 | AcceptedText3
    | AcceptedText4

  /** The text of each fragment, as written in the source's template literals. */
  function FragmentText(f: Fragment): string {
    match f
    case CardHead => @"
  <div style=""font-family:Arial,Helvetica,sans-serif;font-size:14px;line-height:1.6;color:#111;background:#f8fafc;padding:24px;"">
    <div style=""max-width:560px;margin:0 auto;border:1px solid #e5e7eb;border-radius:14px;overflow:hidden;background:#ffffff;"">
      <div style=""background:linear-gradient(135deg,#059669,#10b981);padding:18px 20px;color:#fff;"">
        <div style=""font-size:16px;font-weight:800;letter-spacing:0.2px;"">SpendNote</div>
        <div style=""font-size:20px;font-weight:900;margin-top:4px;"">"
    case CardAfterTitle => @"</div>
        <div style=""font-size:13px;opacity:0.95;margin-top:4px;"">"
    case CardAfterSubtitle => @"</div>
      </div>
      <div style=""padding:18px 20px;"">"
    case CardFoot => @"</div>
      <div style=""padding:14px 20px;border-top:1px solid #e5e7eb;color:#6b7280;font-size:12px;"">
        Cash handoff documentation only. Not a tax or accounting tool.<br>
        &copy; SpendNote • <a href=""https://spendnote.app"" style=""color:#6b7280;"">spendnote.app</a>
      </div>
    </div>
  </div>
"
    case InviteTitle => "You’ve been invited"
    case InviteSubtitle => "Join your team in SpendNote"
    case WelcomeTitle => "Welcome to SpendNote"
    case WelcomeSubtitle => "Your account is ready"
    case ConfirmTitle => "Confirm your email"
    case ConfirmSubtitle => "One quick step to activate your account"
    case AcceptedTitle => "Invite accepted"
    case AcceptedSubtitle => "A team member is now active"
    case InviteBody0 => @"
      <p style=""margin:0 0 10px;"">"
    case InviteBody1 => @" invited you to join their SpendNote team.</p>
      <p style=""margin:0 0 14px;"">Role: <strong>"
    case InviteBody2 => @"</strong></p>
      <div style=""margin:18px 0 16px;"">
        <a href="""
    case InviteBody3 => @""" style=""display:inline-block;background:#059669;color:#fff;text-decoration:none;padding:10px 14px;border-radius:10px;font-weight:800;"">Accept invitation</a>
      </div>
      <p style=""margin:0 0 10px;color:#374151;"">If the button doesn’t work, copy and paste this link into your browser:</p>
      <p style=""margin:0 0 16px;""><a href="""
    case InviteBody4 => @""" style=""color:#1d4ed8;word-break:break-all;"">"
    case InviteBody5 => @"</a></p>
      <p style=""margin:0;color:#6b7280;"">If you didn’t expect this invite, you can ignore this email.</p>
    "
    case WelcomeBody0 => @"
      <p style=""margin:0 0 10px;"">Hi "
    case WelcomeBody1 => @", your SpendNote account has been created successfully.</p>
      <p style=""margin:0 0 14px;"">You can now log in, create your first cash box, and start documenting cash handoffs.</p>
      <div style=""margin:18px 0 16px;"">
        <a href="""
    case WelcomeBody2 => @""" style=""display:inline-block;background:#059669;color:#fff;text-decoration:none;padding:10px 14px;border-radius:10px;font-weight:800;"">Open SpendNote</a>
      </div>
      <p style=""margin:0;color:#6b7280;"">Need help? Reply to this email and we’ll help you get started.</p>
    "
    case ConfirmBody0 => @"
      <p style=""margin:0 0 10px;"">Hi "
    case ConfirmBody1 => @", please confirm your email address to activate your SpendNote account.</p>
      <div style=""margin:18px 0 16px;"">
        <a href="""
    case ConfirmBody2 => @""" style=""display:inline-block;background:#059669;color:#fff;text-decoration:none;padding:10px 14px;border-radius:10px;font-weight:800;"">Confirm email</a>
      </div>
      <p style=""margin:0 0 10px;color:#374151;"">If the button doesn’t work, use this link:</p>
      <p style=""margin:0 0 16px;""><a href="""
    case ConfirmBody3 => @""" style=""color:#1d4ed8;word-break:break-all;"">"
    case ConfirmBody4 => @"</a></p>
      <p style=""margin:0;color:#6b7280;"">If you didn’t create this account, you can safely ignore this email.</p>
    "
    case AcceptedBody0 => @"
      <p style=""margin:0 0 10px;"">Hi "
    case AcceptedBody1 => @",</p>
      <p style=""margin:0 0 10px;""><strong>"
    case AcceptedBody2 => @"</strong> ("
    case AcceptedBody3 => @") accepted your invitation and joined "
    case AcceptedBody4 => @".</p>
      <div style=""margin:18px 0 16px;"">
        <a href="""
    case AcceptedBody5 => @""" style=""display:inline-block;background:#059669;color:#fff;text-decoration:none;padding:10px 14px;border-radius:10px;font-weight:800;"">Open team settings</a>
      </div>
      <p style=""margin:0;color:#6b7280;"">You can now manage cash box access from Team settings.</p>
    "
    case InviteText0 => "SpendNote invitation\n\n"
    case InviteText1 => " invited you to join SpendNote as "
    case InviteText2 => ".\n\nAccept invitation:\n"
    case InviteText3 => "\n\nIf you didn’t expect this invite, you can ignore this email."
    case WelcomeText0 => "Welcome to SpendNote\n\nHi "
    case WelcomeText1 => ", your account is ready.\nOpen SpendNote: "
    case WelcomeText2 => ""
    case ConfirmText0 => "Confirm your SpendNote email\n\nHi "
    case ConfirmText1 => ", confirm your account:\n"
    case ConfirmText2 => ""
    case AcceptedText0 => "Invite accepted\n\nHi "
    case AcceptedText1 => ", "
    case AcceptedText2 => " accepted your invitation and joined "
    case AcceptedText3 => ".\nOpen team settings: "
    case AcceptedText4 => ""
  }
}
