/** The email body builder of config/GetEmailTemplate.js: a `switch` on the
    template kind returning an HTML template literal filled from `data`, with
    a placeholder for unknown kinds.

    JavaScript evaluation is made explicit: a `data` field that is not set
    prints as `undefined`, reading a field of an undefined `data` throws a
    TypeError, and the identifier `constants` is not declared in that file,
    so evaluating it throws a ReferenceError. Both are `Err` results. */
module Templates {
  import opened Wrappers
  import opened Text

  /** `data.assignedBy` / `data.assignedTo`: a person with an optional
      avatar URL and an optional name. */
  datatype Person = Person(avatar: Option<string>, name: Option<string>)

  /** The `data` object: its string fields by name (a missing name is
      `undefined`) and the two people of a taskboard message. */
  datatype TemplateData = TemplateData(fields: map<string, string>, assignedBy: Option<Person>, assignedTo: Option<Person>)

  datatype RenderError =
    | DataUndefined        // TypeError: a property of `undefined` was read
    | ConstantsUndeclared  // ReferenceError: `constants` is not defined

  /** `${data.f}`. */
  function Field(d: TemplateData, f: string): string {
    if f in d.fields then d.fields[f] else "undefined"
  }

  /** An optional string that JavaScript treats as false: undefined or empty. */
  predicate Falsy(s: Option<string>) {
    s.None? || s.value == ""
  }

  /** `person?.avatar` and `person?.name`: undefined when the person is. */
  function AvatarOf(p: Option<Person>): Option<string> {
    if p.None? then None else p.value.avatar
  }

  function NameOf(p: Option<Person>): Option<string> {
    if p.None? then None else p.value.name
  }

  /** `${person?.name}`. */
  function Printed(s: Option<string>): string {
    if s.None? then "undefined" else s.value
  }

  /** `${s || fallback}`. */
  function OrElse(s: Option<string>, fallback: string): string {
    if Falsy(s) then fallback else s.value
  }

  function Concat(parts: seq<string>): string {
    if parts == [] then "" else parts[0] + Concat(parts[1..])
  }

  lemma OccursShift(a: string, s: string, sub: string, j: int)
    requires OccursAt(s, sub, j)
    ensures OccursAt(a + s, sub, |a| + j)
  {
    assert (a + s)[|a| + j..|a| + j + |sub|] == s[j..j + |sub|];
  }

  /** Every piece of a concatenation occurs in it. */
  lemma {:induction false} ConcatContains(parts: seq<string>, i: nat, piece: string)
    requires i < |parts| && parts[i] == piece
    ensures Contains(Concat(parts), piece)
  {
    if i == 0 {
      OccursAtConcat([], piece, Concat(parts[1..]));
      assert [] + piece + Concat(parts[1..]) == Concat(parts);
    } else {
      ConcatContains(parts[1..], i - 1, piece);
      var j :| 0 <= j <= |Concat(parts[1..])| && OccursAt(Concat(parts[1..]), piece, j);
      OccursShift(parts[0], Concat(parts[1..]), piece, j);
    }
  }

  /** What either side contains, their concatenation contains. */
  lemma ContainsAppend(a: string, b: string, sub: string)
    requires Contains(a, sub) || Contains(b, sub)
    ensures Contains(a + b, sub)
  {
    if Contains(a, sub) {
      var j :| 0 <= j <= |a| && OccursAt(a, sub, j);
      assert (a + b)[j..j + |sub|] == a[j..j + |sub|];
      assert OccursAt(a + b, sub, j);
    } else {
      var j :| 0 <= j <= |b| && OccursAt(b, sub, j);
      OccursShift(a, b, sub, j);
    }
  }

  /** Two pieces of a concatenation, at positions `i` and `j`, occur in
      it. Proved together, so that callers meet both preconditions before
      either fact about the whole string is in scope. */
  lemma ConcatContainsTwo(parts: seq<string>, i: nat, a: string, j: nat, b: string)
    requires i < |parts| && parts[i] == a
    requires j < |parts| && parts[j] == b
    ensures Contains(Concat(parts), a) && Contains(Concat(parts), b)
  {
    ConcatContains(parts, i, a);
    ConcatContains(parts, j, b);
  }

  /** The same for three pieces. */
  lemma ConcatContainsThree(parts: seq<string>, i: nat, a: string, j: nat, b: string, k: nat, c: string)
    requires i < |parts| && parts[i] == a
    requires j < |parts| && parts[j] == b
    requires k < |parts| && parts[k] == c
    ensures Contains(Concat(parts), a) && Contains(Concat(parts), b) && Contains(Concat(parts), c)
  {
    ConcatContainsTwo(parts, i, a, j, b);
    ConcatContains(parts, k, c);
  }

  /** The same for four pieces. */
  lemma ConcatContainsFour(parts: seq<string>, i: nat, a: string, j: nat, b: string,
                           k: nat, c: string, l: nat, d: string)
    requires i < |parts| && parts[i] == a
    requires j < |parts| && parts[j] == b
    requires k < |parts| && parts[k] == c
    requires l < |parts| && parts[l] == d
    ensures Contains(Concat(parts), a) && Contains(Concat(parts), b)
    ensures Contains(Concat(parts), c) && Contains(Concat(parts), d)
  {
    ConcatContainsTwo(parts, i, a, j, b);
    ConcatContainsTwo(parts, k, c, l, d);
  }

  /* The static runs of each template are written as concatenations of
     short literals of a few words each, following the lines of the
     template literals; the characters are theirs. Short literals keep the
     verifier's work on these strings small. Each interpolation, together
     with the markup around it, and each sentence the page contracts
     quote, is a part of its own. The taskboard template is split in two
     after its row of people. */

  function VerificationParts(name: string, url: string): seq<string> {
    [
      "\n" +
        "          " + "<div " + "style=\"max-width: " + "600px; margin: 0 " +
        "auto; padding: " + "10px; font-family: " + "Arial, sans-serif; " +
        "background-color : " + "#f5f7f5;\">\n" +
        "           " + "<h2>Verify Your " + "Email</h2>\n" +
        "            ",
      "<p>Hello " + name + ",</p>",
      "\n" +
        "            " + "<p>Please click the " + "button below to " +
        "verify your email " + "address:</p>\n" +
        "            " + "<a ",
      "href=\"" + url + "\"",
      " " + "style=\"display: " + "inline-block; " + "padding: 12px 24px; " +
        "background-color: " + "#4CAF50; color: " + "white; " +
        "text-decoration: " + "none; " + "border-radius: 4px; " +
        "margin: 16px 0;\">\n" +
        "              " + "Verify Email\n" +
        "            " + "</a>\n" +
        "            " + "<p>If the button " + "doesn't work, you " +
        "can also click this " + "link:</p>\n" +
        "            ",
      "<p>" + url + "</p>",
      "\n" +
        "            ",
      "<p>This link will expire in 24 hours.</p>",
      "\n" +
        "            " + "<p>If you didn't " + "create an account, " +
        "please ignore this " + "email.</p>\n" +
        "          \n" +
        "          " + "</div>\n" +
        "        "
    ]
  }

  function ResetPasswordParts(name: string, url: string): seq<string> {
    [
      "\n" +
        "          " + "<div " + "style=\"max-width: " + "600px; margin: 0 " +
        "auto; padding: " + "10px; font-family: " + "Arial, sans-serif; " +
        "background-color : " + "#f5f7f5;\">\n" +
        "      \n" +
        "            " + "<h2>Reset Your " + "Password</h2>\n" +
        "            ",
      "<p>Hello " + name + ",</p>",
      "\n" +
        "            " + "<p>You requested to " + "reset your " +
        "password. Please " + "click the button " + "below to set a new " +
        "password:</p>\n" +
        "            " + "<a ",
      "href=\"" + url + "\"",
      " " + "style=\"display: " + "inline-block; " + "padding: 12px 24px; " +
        "background-color: " + "#2196F3; color: " + "white; " +
        "text-decoration: " + "none; " + "border-radius: 4px; " +
        "margin: 16px 0;\">\n" +
        "              " + "Reset Password\n" +
        "            " + "</a>\n" +
        "            " + "<p>If the button " + "doesn't work, you " +
        "can also click this " + "link:</p>\n" +
        "            ",
      "<p>" + url + "</p>",
      "\n" +
        "            ",
      "<p>This link will expire in 15 minutes.</p>",
      "\n" +
        "            " + "<p>If you didn't " + "request this, " +
        "please ignore this " + "email.</p>\n" +
        "      \n" +
        "          " + "</div>\n" +
        "        "
    ]
  }

  function ApiKeyParts(name: string, apiKey: string): seq<string> {
    [
      "\n" +
        "         " + "<div " + "style=\"max-width: " + "600px; margin: 0 " +
        "auto; padding: " + "10px; font-family: " + "Arial, sans-serif; " +
        "background-color : " + "#f5f7f5;\">\n" +
        "      \n" +
        "            " + "<h2>New API Key " + "Generated</h2>\n" +
        "            ",
      "<p>Hello " + name + ",</p>",
      "\n" +
        "            " + "<p>Your new API key " + "has been " +
        "generated:</p>\n" +
        "            " + "<div " + "style=\"background-co" + "lor: #f5f5f5; " +
        "padding: 12px; " + "border-radius: 4px; " + "margin: 16px 0;\">\n" +
        "              ",
      "<code style=\"word-break: break-all;\">" + apiKey + "</code>",
      "\n" +
        "            " + "</div>\n" +
        "            " + "<p>Please keep this " + "key secure and do " +
        "not share it with " + "anyone.</p>\n" +
        "            " + "<p>Your previous " + "API key has been " +
        "invalidated.</p>\n" +
        "       \n" +
        "          " + "</div>\n" +
        "        "
    ]
  }

  function ResetSuccessParts(name: string, url: string): seq<string> {
    [
      "\n" +
        "          " + "<div " + "style=\"max-width: " + "600px; margin: 0 " +
        "auto; padding: " + "10px; font-family: " + "Arial, sans-serif; " +
        "background-color : " + "#f5f7f5;\">\n" +
        "      \n" +
        "            " + "<h2>Your Password " + "Get Changed</h2>\n" +
        "            ",
      "<p>Hello " + name + ",</p>",
      "\n" +
        "            " + "<p>Your Password " + "Get Changed Please " +
        "Login:</p>\n" +
        "             " + "<a ",
      "href=\"" + url + "\"",
      " " + "style=\"display: " + "inline-block; " + "padding: 12px 24px; " +
        "background-color: " + "#2196F3; color: " + "white; " +
        "text-decoration: " + "none; " + "border-radius: 4px; " +
        "margin: 16px 0;\">\n" +
        "              " + "Login\n" +
        "            " + "</a>\n" +
        "            " + "<p>If the button " + "doesn't work, you " +
        "can also click this " + "link:</p>\n" +
        "            ",
      "<p>" + url + "</p>",
      "\n" +
        "            " + "<p>Be Secure Do not " + "Share your " +
        "Password.</p>\n" +
        "            " + "<p>If you didn't " + "request this, " +
        "please ignore this " + "email.</p>\n" +
        "        \n" +
        "          " + "</div>\n" +
        "          "
    ]
  }

  function TaskboardPeopleParts(byAvatar: string, byAlt: string, byName: string,
                                toAvatar: string, toAlt: string, toName: string): seq<string> {
    [
      "\n" +
        "           " + "<div " + "style=\"max-width: " + "600px; margin: 0 " +
        "auto; padding: " + "10px; font-family: " + "Arial, sans-serif; " +
        "background-color : " + "#f5f7f5;\">\n" +
        "          \n" +
        "              " + "<h2 style=\"color: " + "#2c3e50;\">TaskBoard " +
        "Status</h2>\n" +
        "\n" +
        "              " + "<div " + "style=\"display: " + "flex; " +
        "justify-content: " + "space-between; " + "align-items: " + "center; " +
        "background-color: " + "#ffffff; padding: " + "16px; " +
        "border-radius: 8px; " + "box-shadow: 0 2px " + "4px " +
        "rgba(0,0,0,0.05); " + "margin-bottom: " + "20px;\">\n" +
        "         \n" +
        "                  " + "<div " + "style=\"text-align: " + "center;\">\n" +
        "                    " + "<img ",
      "src=\"" + byAvatar + "\"",
      " ",
      "alt=\"" + byAlt + "\"",
      " " + "style=\"width: 60px; " + "height: 60px; " +
        "border-radius: 50%; " + "object-fit: cover;\" " + "/>\n" +
        "                    " + "<p " + "style=\"margin-top: " +
        "8px; font-size: " + "14px; color: " + "#2c3e50;\"",
      ">" + byName + "</p>",
      "\n" +
        "                  " + "</div>\n" +
        "    \n" +
        "                  " + "<div style=\"flex: " + "1; text-align: " +
        "center;\">\n" +
        "                    " + "<hr style=\"border: " + "none; border-top: " +
        "2px solid #3498db; " + "width: 100%; " + "position: relative; " +
        "top: 50%; margin: 0 " + "8px;\" />\n" +
        "                    " + "<span " + "style=\"position: " +
        "relative; top: " + "-12px; font-size: " + "24px; color: " +
        "#3498db;\">\U{2192}</span>\n" +
        "                  " + "</div>\n" +
        "          \n" +
        "                  " + "<div " + "style=\"text-align: " + "center;\">\n" +
        "                    " + "<img ",
      "src=\"" + toAvatar + "\"",
      " ",
      "alt=\"" + toAlt + "\"",
      " " + "style=\"width: 60px; " + "height: 60px; " +
        "border-radius: 50%; " + "object-fit: cover;\" " + "/>\n" +
        "                    " + "<p " + "style=\"margin-top: " +
        "8px; font-size: " + "14px; color: " + "#2c3e50;\"",
      ">" + toName + "</p>",
      "\n" +
        "                  " + "</div>\n" +
        "              " + "</div>\n" +
        "              "
    ]
  }

  function TaskboardFooterParts(html: string, url: string): seq<string> {
    [
      html,
      "\n" +
        "               \n" +
        "              " + "<a ",
      "href=\"" + url + "\"",
      " " + "style=\"display: " + "inline-block; " + "padding: 12px 24px; " +
        "background-color: " + "#4CAF50; color: " + "white; " +
        "text-decoration: " + "none; " + "border-radius: 4px; " +
        "margin: 16px 0;\">\n" +
        "                " + "Go To Your " + "Dashboard\n" +
        "              " + "</a>\n" +
        "\n" +
        "              " + "<hr style=\"margin: " + "24px 0; border: " +
        "none; border-top: " + "1px solid #ddd;\" " + "/> \n" +
        "              " + "<small " + "style=\"color: " + "#777;\">This is an " +
        "automated message. " + "Please do not reply " + "directly to this " +
        "email.</small>\n" +
        "           \n" +
        "          " + "</div>\n" +
        "      "
    ]
  }

  /** The verification page greets the user by name, links the
      verification URL both as the button's `href` and as plain text, and
      states the 24-hour expiry. */
  function VerificationPage(name: string, url: string): (h: string)
    ensures Contains(h, "<p>Hello " + name + ",</p>")
    ensures Contains(h, "href=\"" + url + "\"")
    ensures Contains(h, "<p>" + url + "</p>")
    ensures Contains(h, "<p>This link will expire in 24 hours.</p>")
  {
    var parts := VerificationParts(name, url);
    ConcatContainsFour(parts,
      1, "<p>Hello " + name + ",</p>",
      3, "href=\"" + url + "\"",
      5, "<p>" + url + "</p>",
      7, "<p>This link will expire in 24 hours.</p>");
    Concat(parts)
  }

  /** The reset page carries the reset URL twice (button and text) and
      states the 15-minute expiry. */
  function ResetPasswordPage(name: string, url: string): (h: string)
    ensures Contains(h, "<p>Hello " + name + ",</p>")
    ensures Contains(h, "href=\"" + url + "\"")
    ensures Contains(h, "<p>" + url + "</p>")
    ensures Contains(h, "<p>This link will expire in 15 minutes.</p>")
  {
    var parts := ResetPasswordParts(name, url);
    ConcatContainsFour(parts,
      1, "<p>Hello " + name + ",</p>",
      3, "href=\"" + url + "\"",
      5, "<p>" + url + "</p>",
      7, "<p>This link will expire in 15 minutes.</p>");
    Concat(parts)
  }

  /** The API-key page shows the key inside its `<code>` element. */
  function ApiKeyPage(name: string, apiKey: string): (h: string)
    ensures Contains(h, "<p>Hello " + name + ",</p>")
    ensures Contains(h, "<code style=\"word-break: break-all;\">" + apiKey + "</code>")
  {
    var parts := ApiKeyParts(name, apiKey);
    ConcatContainsTwo(parts,
      1, "<p>Hello " + name + ",</p>",
      3, "<code style=\"word-break: break-all;\">" + apiKey + "</code>");
    Concat(parts)
  }

  /** The password-changed page carries the login URL twice. */
  function ResetSuccessPage(name: string, url: string): (h: string)
    ensures Contains(h, "<p>Hello " + name + ",</p>")
    ensures Contains(h, "href=\"" + url + "\"")
    ensures Contains(h, "<p>" + url + "</p>")
  {
    var parts := ResetSuccessParts(name, url);
    ConcatContainsThree(parts,
      1, "<p>Hello " + name + ",</p>",
      3, "href=\"" + url + "\"",
      5, "<p>" + url + "</p>");
    Concat(parts)
  }

  /** The people row of the taskboard page shows both names. */
  function TaskboardPeople(byAvatar: string, byAlt: string, byName: string,
                           toAvatar: string, toAlt: string, toName: string): (h: string)
    ensures Contains(h, ">" + byName + "</p>")
    ensures Contains(h, ">" + toName + "</p>")
  {
    var parts := TaskboardPeopleParts(byAvatar, byAlt, byName, toAvatar, toAlt, toName);
    ConcatContainsTwo(parts,
      5, ">" + byName + "</p>",
      11, ">" + toName + "</p>");
    Concat(parts)
  }

  /** The rest of the taskboard page inserts `html` verbatim and links
      `url`. */
  function TaskboardFooter(html: string, url: string): (h: string)
    ensures Contains(h, html)
    ensures Contains(h, "href=\"" + url + "\"")
  {
    var parts := TaskboardFooterParts(html, url);
    ConcatContainsTwo(parts,
      0, html,
      2, "href=\"" + url + "\"");
    Concat(parts)
  }

  /** The taskboard page shows both names, inserts `html` verbatim and
      links `url`. */
  function TaskboardPage(byAvatar: string, byAlt: string, byName: string,
                         toAvatar: string, toAlt: string, toName: string,
                         html: string, url: string): (h: string)
    ensures Contains(h, ">" + byName + "</p>")
    ensures Contains(h, ">" + toName + "</p>")
    ensures Contains(h, html)
    ensures Contains(h, "href=\"" + url + "\"")
  {
    var people := TaskboardPeople(byAvatar, byAlt, byName, toAvatar, toAlt, toName);
    var footer := TaskboardFooter(html, url);
    ContainsAppend(people, footer, ">" + byName + "</p>");
    ContainsAppend(people, footer, ">" + toName + "</p>");
    ContainsAppend(people, footer, html);
    ContainsAppend(people, footer, "href=\"" + url + "\"");
    people + footer
  }

  /** The template names the `switch` knows. */
  predicate KnownKind(kind: string) {
    kind in {"verification", "resetPassword", "apiKeyGenerated", "passwordResetSuccess", "feedback", "taskboard"}
  }

  function Placeholder(kind: string): string {
    "<p>No template found for email type: " + kind + "</p>"
  }

  /** `getEmailTemplate(type, data)`; `data == None` is an undefined `data`. */
  function Render(kind: string, data: Option<TemplateData>): (r: Result<string, RenderError>)
    ensures !KnownKind(kind) ==> r == Ok(Placeholder(kind))
    ensures KnownKind(kind) && data.None? ==> r == Err(DataUndefined)
  {
    if !KnownKind(kind) then Ok(Placeholder(kind))
    else if data.None? then Err(DataUndefined)
    else
      var d := data.value;
      if kind == "verification" then
        Ok(VerificationPage(Field(d, "name"), Field(d, "verificationUrl")))
      else if kind == "resetPassword" then
        Ok(ResetPasswordPage(Field(d, "name"), Field(d, "resetUrl")))
      else if kind == "apiKeyGenerated" then
        Ok(ApiKeyPage(Field(d, "name"), Field(d, "apiKey")))
      else if kind == "passwordResetSuccess" then
        Ok(ResetSuccessPage(Field(d, "name"), Field(d, "loginUrl")))
      else if kind == "feedback" then
        Err(ConstantsUndeclared)
      else if Falsy(AvatarOf(d.assignedBy)) || Falsy(AvatarOf(d.assignedTo)) then
        Err(ConstantsUndeclared)
      else
        Ok(TaskboardPage(
          AvatarOf(d.assignedBy).value, Printed(NameOf(d.assignedBy)), OrElse(NameOf(d.assignedBy), "Assigned By"),
          AvatarOf(d.assignedTo).value, Printed(NameOf(d.assignedTo)), OrElse(NameOf(d.assignedTo), "Assigned To"),
          Field(d, "html"), Field(d, "url")))
  }

  /** The verification mail greets the user by name, links the verification
      URL both as the button's `href` and as plain text, and states the
      24-hour expiry. */
  lemma VerificationContent(d: TemplateData)
    ensures Render("verification", Some(d)).Ok?
    ensures var h := Render("verification", Some(d)).value;
      Contains(h, "<p>Hello " + Field(d, "name") + ",</p>")
      && Contains(h, "href=\"" + Field(d, "verificationUrl") + "\"")
      && Contains(h, "<p>" + Field(d, "verificationUrl") + "</p>")
      && Contains(h, "<p>This link will expire in 24 hours.</p>")
  {
  }

  /** The reset mail carries the reset URL twice (button and text) and
      states the 15-minute expiry. */
  lemma ResetPasswordContent(d: TemplateData)
    ensures Render("resetPassword", Some(d)).Ok?
    ensures var h := Render("resetPassword", Some(d)).value;
      Contains(h, "<p>Hello " + Field(d, "name") + ",</p>")
      && Contains(h, "href=\"" + Field(d, "resetUrl") + "\"")
      && Contains(h, "<p>" + Field(d, "resetUrl") + "</p>")
      && Contains(h, "<p>This link will expire in 15 minutes.</p>")
  {
  }

  /** The API-key mail shows the key inside its `<code>` element. */
  lemma ApiKeyContent(d: TemplateData)
    ensures Render("apiKeyGenerated", Some(d)).Ok?
    ensures var h := Render("apiKeyGenerated", Some(d)).value;
      Contains(h, "<p>Hello " + Field(d, "name") + ",</p>")
      && Contains(h, "<code style=\"word-break: break-all;\">" + Field(d, "apiKey") + "</code>")
  {
  }

  /** The password-changed mail carries the login URL twice. */
  lemma ResetSuccessContent(d: TemplateData)
    ensures Render("passwordResetSuccess", Some(d)).Ok?
    ensures var h := Render("passwordResetSuccess", Some(d)).value;
      Contains(h, "<p>Hello " + Field(d, "name") + ",</p>")
      && Contains(h, "href=\"" + Field(d, "loginUrl") + "\"")
      && Contains(h, "<p>" + Field(d, "loginUrl") + "</p>")
  {
  }

  /** The feedback template always evaluates the undeclared `constants`,
      so it never produces a body. */
  lemma FeedbackAlwaysThrows(data: Option<TemplateData>)
    ensures Render("feedback", data).Err?
  {
  }

  /** The taskboard template throws exactly when one of the two avatars is
      missing or empty; otherwise it shows each name (or the fallback label
      when the name is missing or empty), inserts `data.html` verbatim and
      links `data.url`. */
  lemma TaskboardContent(d: TemplateData)
    ensures Render("taskboard", Some(d)).Err? <==> Falsy(AvatarOf(d.assignedBy)) || Falsy(AvatarOf(d.assignedTo))
    ensures Render("taskboard", Some(d)).Ok? ==>
      var h := Render("taskboard", Some(d)).value;
      Contains(h, ">" + (if Falsy(NameOf(d.assignedBy)) then "Assigned By" else NameOf(d.assignedBy).value) + "</p>")
      && Contains(h, ">" + (if Falsy(NameOf(d.assignedTo)) then "Assigned To" else NameOf(d.assignedTo).value) + "</p>")
      && Contains(h, Field(d, "html"))
      && Contains(h, "href=\"" + Field(d, "url") + "\"")
  {
  }

  /** Any other kind yields the placeholder naming it, whatever `data` is. */
  lemma UnknownKindPlaceholder(kind: string, data: Option<TemplateData>)
    requires !KnownKind(kind)
    ensures Render(kind, data).Ok?
    ensures Contains(Render(kind, data).value, kind)
    ensures StartsWith(Render(kind, data).value, "<p>No template found for email type: ")
  {
    OccursAtConcat("<p>No template found for email type: ", kind, "</p>");
    var h := Placeholder(kind);
    assert h[..|"<p>No template found for email type: "|] == "<p>No template found for email type: ";
  }
}
