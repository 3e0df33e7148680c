/**
 * Email notifications to students: six fixed templates, lookup with a
 * fallback to the free-form message, `{key}` placeholder substitution,
 * the default variables a message is filled from, and the choice of
 * variables for each recipient of a bulk send.
 */
module Notification {
  import opened Wrappers
  import opened Text
  import opened Objects

  /** An email template: `subject` and `body` may hold `{key}` placeholders. */
  datatype Template = Template(id: string, name: string, icon: string, subject: string, body: string)

  /** The `{ subject, body }` a template renders to. */
  datatype Email = Email(subject: string, body: string)

  // The template texts below are written as concatenations of short literals,
  // one or a few whole words each: a single long literal makes the verifier's
  // work on every proof that mentions a template grow sharply.

  /** The divider line used between sections of a body. */
  function Rule(): string
  {
    "\U{2501}\U{2501}\U{2501}\U{2501}\U{2501}\U{2501}\U{2501}\U{2501}\U{2501}\U{2501}"
      + "\U{2501}\U{2501}\U{2501}\U{2501}\U{2501}\U{2501}\U{2501}\U{2501}\U{2501}\U{2501}"
  }

  /** `EMAIL_TEMPLATES.item_found` */
  function ItemFound(): Template
  {
    Template("item_found", "Item Found " + "Notification", "\U{1F389}",
    "Good News! We " + "May Have " + "Found Your " + "Lost Item",
      ItemFoundBody())
  }

  function ItemFoundBody(): string
  {
    "Hi " + "{studentName},\n"
      + "\n"
      + "Great news! " + "An item " + "matching your " + "lost item " + "report has " + "been found.\n"
      + "\n"
      + "Your Lost " + "Item:\n"
      + Rule() + "\n"
      + "\U{2022} " + "{itemTitle}\n"
      + "\U{2022} " + "Category: " + "{category}\n"
      + "\U{2022} " + "Reported: " + "{reportedDate}\n"
      + "\U{2022} " + "Location: " + "{location}\n"
      + "\n"
      + "Found Item " + "Details:\n"
      + Rule() + "\n"
      + "\U{2022} " + "Found at: " + "{foundLocation}\n"
      + "\U{2022} Date " + "Found: " + "{foundDate}\n"
      + "\n"
      + "Please visit " + "the GLA Lost " + "& Found " + "portal to " + "review and " + "claim this " + "item if it's " + "yours.\n"
      + "\n"
      + "Portal: " + "{portalUrl}\n"
      + "\n"
      + "Best " + "regards,\n"
      + "{facultyName}\n"
      + "GLA Lost & " + "Found Team"
  }

  /** `EMAIL_TEMPLATES.claim_approved` */
  function ClaimApproved(): Template
  {
    Template("claim_approved", "Claim Approved", "\U{2705}",
    "Claim " + "Approved - " + "Please " + "Collect Your " + "Item",
      ClaimApprovedBody())
  }

  function ClaimApprovedBody(): string
  {
    "Hi " + "{studentName},\n"
      + "\n"
      + "Congratulations! " + "Your claim " + "for the " + "following " + "item has been " + "approved:\n"
      + "\n"
      + "Item " + "Details:\n"
      + Rule() + "\n"
      + "\U{2022} " + "Item: " + "{itemTitle}\n"
      + "\U{2022} " + "Category: " + "{category}\n"
      + "\U{2022} " + "Claim ID: " + "{claimId}\n"
      + "\U{2022} " + "Approved By: " + "{facultyName}\n"
      + "\n"
      + "Next Steps to " + "Collect Your " + "Item:\n"
      + Rule() + "\n"
      + "1. Visit: " + "{pickupLocation}\n"
      + "2. Bring your " + "University " + "ID\n"
      + "3. Mention " + "Claim ID: " + "{claimId}\n"
      + "\n"
      + "Office Hours: " + "Monday-Friday, " + "9:00 AM - " + "5:00 PM\n"
      + "\n"
      + "Please " + "collect your " + "item within 7 " + "days.\n"
      + "\n"
      + "Best " + "regards,\n"
      + "GLA Lost & " + "Found Team"
  }

  /** `EMAIL_TEMPLATES.claim_rejected` */
  function ClaimRejected(): Template
  {
    Template("claim_rejected", "Claim Rejected", "\U{274C}",
    "Claim Status " + "Update",
      ClaimRejectedBody())
  }

  function ClaimRejectedBody(): string
  {
    "Hi " + "{studentName},\n"
      + "\n"
      + "Thank you for " + "submitting " + "your claim. " + "After careful " + "review, we're " + "unable to " + "approve your " + "claim for:\n"
      + "\n"
      + "Item: " + "{itemTitle}\n"
      + "Claim ID: " + "{claimId}\n"
      + "\n"
      + "Reason:\n"
      + "{rejectionReason}\n"
      + "\n"
      + "What You Can " + "Do:\n"
      + Rule() + "\n"
      + "\U{2022} " + "Review the " + "item details " + "again in the " + "portal\n"
      + "\U{2022} " + "Submit a new " + "claim with " + "additional " + "proof if you " + "have it\n"
      + "\U{2022} " + "Contact us if " + "you have " + "questions\n"
      + "\n"
      + "We're here to " + "help reunite " + "students with " + "their " + "belongings. " + "Feel free to " + "reach out if " + "you need " + "assistance.\n"
      + "\n"
      + "Best " + "regards,\n"
      + "{facultyName}\n"
      + "GLA Lost & " + "Found Team"
  }

  /** `EMAIL_TEMPLATES.match_found` */
  function MatchFound(): Template
  {
    Template("match_found", "Potential " + "Match Found", "\U{1F50D}",
    "Potential " + "Match for " + "Your " + "{itemType} " + "Item",
      MatchFoundBody())
  }

  function MatchFoundBody(): string
  {
    "Hi " + "{studentName},\n"
      + "\n"
      + "Exciting " + "news! Our " + "smart " + "matching " + "system has " + "identified a " + "potential " + "match for " + "your " + "{itemType} " + "item.\n"
      + "\n"
      + "Your Item:\n"
      + Rule() + "\n"
      + "\U{2022} " + "{yourItem}\n"
      + "\U{2022} " + "Reported: " + "{yourDate}\n"
      + "\n"
      + "Potential " + "Match:\n"
      + Rule() + "\n"
      + "\U{2022} " + "{matchedItem}\n"
      + "\U{2022} " + "Match " + "Confidence: " + "{matchScore}%\n"
      + "\n"
      + "{otherStudentName} " + "has reported " + "{oppositeAction} " + "this item. " + "We've " + "notified them " + "as well about " + "this " + "potential " + "match.\n"
      + "\n"
      + "Next Steps:\n"
      + Rule() + "\n"
      + "\U{2022} " + "Visit the " + "portal to " + "review the " + "match\n"
      + "\U{2022} If " + "it's your " + "item, submit " + "a claim\n"
      + "\U{2022} " + "Contact us if " + "you have " + "questions\n"
      + "\n"
      + "Portal: " + "{portalUrl}\n"
      + "\n"
      + "Best " + "regards,\n"
      + "GLA Lost & " + "Found Team"
  }

  /** `EMAIL_TEMPLATES.pickup_reminder` */
  function PickupReminder(): Template
  {
    Template("pickup_reminder", "Pickup " + "Reminder", "\U{23F0}",
    "Reminder: " + "Please " + "Collect Your " + "Item",
      PickupReminderBody())
  }

  function PickupReminderBody(): string
  {
    "Hi " + "{studentName},\n"
      + "\n"
      + "This is a " + "friendly " + "reminder to " + "collect your " + "claimed " + "item:\n"
      + "\n"
      + "Item: " + "{itemTitle}\n"
      + "Claimed: " + "{claimDate}\n"
      + "\n"
      + "Collection " + "Details:\n"
      + Rule() + "\n"
      + "\U{2022} " + "Location: " + "{pickupLocation}\n"
      + "\U{2022} " + "Hours: " + "Monday-Friday, " + "9:00 AM - " + "5:00 PM\n"
      + "\U{2022} " + "Bring: " + "University " + "ID\n"
      + "\U{2022} " + "Claim ID: " + "{claimId}\n"
      + "\n"
      + "Important: " + "Items not " + "collected " + "within " + "{daysRemaining} " + "days will be " + "returned to " + "storage.\n"
      + "\n"
      + "Best " + "regards,\n"
      + "GLA Lost & " + "Found Team"
  }

  /** `EMAIL_TEMPLATES.custom_message` */
  function CustomMessage(): Template
  {
    Template("custom_message", "Custom Message", "\U{2709}\U{FE0F}",
    "Message from " + "GLA Lost & " + "Found",
      CustomMessageBody())
  }

  function CustomMessageBody(): string
  {
    "Hi " + "{studentName},\n"
      + "\n"
      + "{customMessage}\n"
      + "\n"
      + "Best " + "regards,\n"
      + "{facultyName}\n"
      + "GLA Lost & " + "Found Team"
  }

  /** `EMAIL_TEMPLATES`, in declaration order. */
  function EmailTemplates(): Obj<Template>
  {
    [ ("item_found", ItemFound()),
      ("claim_approved", ClaimApproved()),
      ("claim_rejected", ClaimRejected()),
      ("match_found", MatchFound()),
      ("pickup_reminder", PickupReminder()),
      ("custom_message", CustomMessage()) ]
  }

  /** The table has six entries under distinct keys, and each template's `id` is its key. */
  lemma TemplateTable()
    ensures |EmailTemplates()| == 6 && DistinctKeys(EmailTemplates())
    ensures forall i :: 0 <= i < |EmailTemplates()| ==> EmailTemplates()[i].1.id == EmailTemplates()[i].0
  {
  }

  /** Looking up a key of the table finds the template stored under it. */
  lemma TemplateLookup()
    ensures forall i :: 0 <= i < |EmailTemplates()| ==> Get(EmailTemplates(), EmailTemplates()[i].0) == Some(EmailTemplates()[i].1)
  {
    TemplateTable();
    forall i | 0 <= i < |EmailTemplates()|
      ensures Get(EmailTemplates(), EmailTemplates()[i].0) == Some(EmailTemplates()[i].1)
    {
      GetAt(EmailTemplates(), i);
    }
  }

  /** `getEmailTemplates()`: `Object.values(EMAIL_TEMPLATES)`. */
  function GetEmailTemplates(): (ts: seq<Template>)
    ensures |ts| == 6
    ensures forall i :: 0 <= i < |ts| ==> Get(EmailTemplates(), ts[i].id) == Some(ts[i])
  {
    var table := EmailTemplates();
    TemplateTable();
    TemplateLookup();
    seq(|table|, i requires 0 <= i < |table| => table[i].1)
  }

  /** Every template a lookup can find is listed by `getEmailTemplates`. */
  lemma ListedTemplatesComplete(k: string)
    ensures Get(EmailTemplates(), k).Some? ==> Get(EmailTemplates(), k).value in GetEmailTemplates()
  {
    var table, ts := EmailTemplates(), GetEmailTemplates();
    if Get(table, k).Some? {
      var i :| 0 <= i < |table| && table[i].0 == k;
      TemplateLookup();
      assert ts[i] == table[i].1;
    }
  }

  /**
   * `getTemplate(templateId)`: the template stored under the id, and the
   * custom message for any other id (templates are objects, so a stored
   * one is never falsy).
   */
  function GetTemplate(templateId: string): (t: Template)
    ensures t in GetEmailTemplates()
    ensures Get(EmailTemplates(), templateId).Some? ==> t == Get(EmailTemplates(), templateId).value && t.id == templateId
    ensures Get(EmailTemplates(), templateId).None? ==> t == CustomMessage()
  {
    var ts := GetEmailTemplates();
    assert ts[5] == CustomMessage();
    ListedTemplatesComplete(templateId);
    TemplateTable();
    match Get(EmailTemplates(), templateId)
    case Some(t) =>
      var i :| 0 <= i < 6 && EmailTemplates()[i].0 == templateId;
      GetAt(EmailTemplates(), i);
      t
    case None => CustomMessage()
  }

  /** A lookup answers with the requested template exactly when the id is a key of the table. */
  lemma GetTemplateFindsOwnId(templateId: string)
    ensures GetTemplate(templateId).id == templateId <==> Get(EmailTemplates(), templateId).Some?
  {
    if Get(EmailTemplates(), templateId).None? {
      GetAt(EmailTemplates(), 5);
      TemplateTable();
    }
  }

  // ----- `{key}` substitution -----

  /** No brace occurs in `s`. */
  predicate BraceFree(s: string)
  {
    forall i :: 0 <= i < |s| ==> s[i] != '{' && s[i] != '}'
  }

  /** The placeholder `{key}` the regular expression of `renderTemplate` matches. */
  function Placeholder(key: string): (p: string)
    ensures |p| == |key| + 2 && p[0] == '{' && p[|p| - 1] == '}' && p[1..|p| - 1] == key
  {
    "{" + key + "}"
  }

  /** A string that opens with `{`, closes with `}` and holds no other brace. */
  predicate Delimited(pat: string)
  {
    && |pat| >= 2 && pat[0] == '{' && pat[|pat| - 1] == '}'
    && forall i :: 0 < i < |pat| - 1 ==> pat[i] != '{' && pat[i] != '}'
  }

  lemma PlaceholderDelimited(key: string)
    requires BraceFree(key)
    ensures Delimited(Placeholder(key))
  {
    var p := Placeholder(key);
    assert forall i :: 0 < i < |p| - 1 ==> p[i] == key[i - 1];
  }

  /**
   * `s.replace(new RegExp(pat, 'g'), rep)` for a pattern that is matched
   * literally: scanning left to right, each occurrence is replaced and
   * scanning resumes after it.
   */
  function ReplaceAll(s: string, pat: string, rep: string): (r: string)
    requires pat != []
    ensures |rep| == |pat| ==> |r| == |s|
    decreases |s|
  {
    if pat <= s then rep + ReplaceAll(s[|pat|..], pat, rep)
    else if s == [] then []
    else [s[0]] + ReplaceAll(s[1..], pat, rep)
  }

  /** A string without the pattern comes back unchanged. */
  lemma {:induction false} ReplaceAbsent(s: string, pat: string, rep: string)
    requires pat != [] && !Contains(s, pat)
    ensures ReplaceAll(s, pat, rep) == s
    decreases |s|
  {
    if s != [] {
      ReplaceAbsent(s[1..], pat, rep);
    }
  }

  /** A prefix at none of whose positions the pattern starts is copied unchanged. */
  lemma {:induction false} ReplaceSkip(p: string, t: string, pat: string, rep: string)
    requires pat != []
    requires forall j :: 0 <= j < |p| ==> !(pat <= (p + t)[j..])
    ensures ReplaceAll(p + t, pat, rep) == p + ReplaceAll(t, pat, rep)
    decreases |p|
  {
    if p != [] {
      var s := p + t;
      assert s[0..] == s;
      assert ReplaceAll(s, pat, rep) == [p[0]] + ReplaceAll(s[1..], pat, rep);
      assert s[1..] == p[1..] + t;
      forall j | 0 <= j < |p[1..]|
        ensures !(pat <= (p[1..] + t)[j..])
      {
        assert (p[1..] + t)[j..] == s[j + 1..];
      }
      ReplaceSkip(p[1..], t, pat, rep);
      assert p == [p[0]] + p[1..];
    }
  }

  /** A string without the pattern has no occurrence of it at any position. */
  lemma {:induction false} NotContainsAt(s: string, pat: string, j: int)
    requires !Contains(s, pat) && 0 <= j && j + |pat| <= |s|
    ensures s[j..j + |pat|] != pat
    decreases j
  {
    if j > 0 {
      NotContainsAt(s[1..], pat, j - 1);
      assert s[1..][j - 1..j - 1 + |pat|] == s[j..j + |pat|];
    }
  }

  /** A contained string occurs at some position. */
  lemma {:induction false} ContainsIndex(s: string, pat: string) returns (p: int)
    requires Contains(s, pat)
    ensures 0 <= p && p + |pat| <= |s| && s[p..p + |pat|] == pat
    decreases |s|
  {
    if pat <= s {
      p := 0;
    } else {
      var q := ContainsIndex(s[1..], pat);
      p := q + 1;
      assert s[1..][q..q + |pat|] == s[p..p + |pat|];
    }
  }

  /** Text in front of a contained string keeps it contained. */
  lemma {:induction false} ContainsAfter(front: string, t: string, pat: string)
    requires Contains(t, pat)
    ensures Contains(front + t, pat)
    decreases |front|
  {
    if front != [] {
      assert (front + t)[1..] == front[1..] + t;
      ContainsAfter(front[1..], t, pat);
    } else {
      assert front + t == t;
    }
  }

  /**
   * Where a delimited pattern follows a part that does not contain it, no
   * occurrence starts inside the part: one that ran into the pattern would
   * have to hold its opening brace in the middle.
   */
  lemma NoMatchInPart(p: string, pat: string, r: string, j: int)
    requires Delimited(pat) && !Contains(p, pat) && 0 <= j < |p|
    ensures !(pat <= (p + pat + r)[j..])
  {
    var s := (p + pat + r)[j..];
    if j + |pat| <= |p| {
      NotContainsAt(p, pat, j);
      assert s[..|pat|] == p[j..j + |pat|];
    } else {
      var d := |p| - j;
      assert s[d] == '{';
    }
  }

  /** `parts.join(sep)` */
  function Join(parts: seq<string>, sep: string): string
  {
    if parts == [] then []
    else if |parts| == 1 then parts[0]
    else parts[0] + sep + Join(parts[1..], sep)
  }

  /** A part without the placeholder, then the placeholder: the part is kept and the placeholder replaced. */
  lemma ReplacePartThenPattern(p: string, pat: string, r: string, rep: string)
    requires Delimited(pat) && !Contains(p, pat)
    ensures ReplaceAll(p + pat + r, pat, rep) == p + rep + ReplaceAll(r, pat, rep)
  {
    assert p + pat + r == p + (pat + r);
    forall j | 0 <= j < |p|
      ensures !(pat <= (p + (pat + r))[j..])
    {
      NoMatchInPart(p, pat, r, j);
    }
    ReplaceSkip(p, pat + r, pat, rep);
    assert (pat + r)[|pat|..] == r;
  }

  /**
   * Every occurrence of a placeholder is replaced and nothing else changes:
   * cutting the string at the placeholder's occurrences and joining the
   * pieces with the replacement is what `ReplaceAll` computes.
   */
  lemma {:induction false} ReplaceAllJoin(parts: seq<string>, pat: string, rep: string)
    requires Delimited(pat)
    requires forall i :: 0 <= i < |parts| ==> !Contains(parts[i], pat)
    ensures ReplaceAll(Join(parts, pat), pat, rep) == Join(parts, rep)
  {
    if |parts| == 1 {
      ReplaceAbsent(parts[0], pat, rep);
    } else if |parts| > 1 {
      ReplacePartThenPattern(parts[0], pat, Join(parts[1..], pat), rep);
      ReplaceAllJoin(parts[1..], pat, rep);
    }
  }

  /** The position of the first `}` in `s`, or `|s|` when there is none. */
  function CloseAt(s: string): nat
  {
    if s == [] || s[0] == '}' then 0 else 1 + CloseAt(s[1..])
  }

  lemma {:induction false} CloseAtOf(s: string, i: int)
    requires 0 <= i < |s| && s[i] == '}' && forall j :: 0 <= j < i ==> s[j] != '}'
    ensures CloseAt(s) == i
    decreases i
  {
    if i > 0 {
      CloseAtOf(s[1..], i - 1);
    }
  }

  /** Two delimited patterns that both start a string are the same. */
  lemma SameDelimitedPrefix(s: string, a: string, b: string)
    requires Delimited(a) && Delimited(b) && a <= s && b <= s
    ensures a == b
  {
    CloseAtOf(s, |a| - 1);
    CloseAtOf(s, |b| - 1);
    assert a == s[..|a|] && b == s[..|b|];
  }

  /** An occurrence of one placeholder cannot begin inside an occurrence of another that starts the string. */
  lemma StartsAfter(s: string, a: string, k: string, p: int)
    requires Delimited(a) && Delimited(k) && a <= s
    requires 0 <= p && p + |k| <= |s| && s[p..p + |k|] == k
    ensures p >= |a| || (p == 0 && a == k)
  {
    assert s[p] == k[0] == '{';
    assert p == 0 || p >= |a| by {
      assert p < |a| ==> s[p] == a[p];
    }
    if p == 0 {
      assert k <= s by { assert s[..|k|] == k; }
      SameDelimitedPrefix(s, a, k);
    }
  }

  /** Replacing one placeholder leaves every occurrence of a different one in place. */
  lemma {:induction false} PlaceholderSurvives(s: string, a: string, k: string, rep: string, p: int)
    requires Delimited(a) && Delimited(k) && a != k
    requires 0 <= p && p + |k| <= |s| && s[p..p + |k|] == k
    ensures Contains(ReplaceAll(s, a, rep), k)
    decreases |s|
  {
    if a <= s {
      StartsAfter(s, a, k, p);
      var t := s[|a|..];
      assert t[p - |a|..p - |a| + |k|] == k;
      PlaceholderSurvives(t, a, k, rep, p - |a|);
      ContainsAfter(rep, ReplaceAll(t, a, rep), k);
    } else if p > 0 {
      assert s[1..][p - 1..p - 1 + |k|] == k;
      PlaceholderSurvives(s[1..], a, k, rep, p - 1);
      ContainsAfter([s[0]], ReplaceAll(s[1..], a, rep), k);
    } else {
      var front, t := s[..|k|], s[|k|..];
      assert front + t == s;
      forall j | 0 <= j < |front|
        ensures !(a <= (front + t)[j..])
      {
        if j > 0 {
          assert (front + t)[j..][0] == k[j];
        }
      }
      ReplaceSkip(front, t, a, rep);
      assert k <= ReplaceAll(s, a, rep);
    }
  }

  // ----- rendering -----

  /** A variables object: a missing or falsy value is `None`. */
  type Vars = Obj<Option<string>>

  /** `variables[key] || ''` */
  function ValueText(v: Option<string>): string
  {
    if v.Some? then v.value else ""
  }

  /** `s` after the replacements for the first `|vars|` keys, applied in key order. */
  function Substitute(s: string, vars: Vars): string
    decreases |vars|
  {
    if vars == [] then s
    else
      var last := vars[|vars| - 1];
      ReplaceAll(Substitute(s, vars[..|vars| - 1]), Placeholder(last.0), ValueText(last.1))
  }

  /** What `renderTemplate(template, variables)` returns; with no variables, subject and body come back unchanged. */
  function Render(template: Template, variables: Vars): (e: Email)
    ensures variables == [] ==> e == Email(template.subject, template.body)
  {
    Email(Substitute(template.subject, variables), Substitute(template.body, variables))
  }

  /**
   * `renderTemplate(template, variables)`: for each key in turn, replace
   * every `{key}` in the subject and in the body.
   */
  method RenderTemplate(template: Template, variables: Vars) returns (e: Email)
    ensures e == Render(template, variables)
  {
    var subject := template.subject;
    var body := template.body;
    var i := 0;
    while i < |variables|
      invariant 0 <= i <= |variables|
      invariant subject == Substitute(template.subject, variables[..i])
      invariant body == Substitute(template.body, variables[..i])
    {
      var key := variables[i].0;
      var text := ValueText(variables[i].1);
      assert variables[..i + 1][..i] == variables[..i];
      subject := ReplaceAll(subject, Placeholder(key), text);
      body := ReplaceAll(body, Placeholder(key), text);
      i := i + 1;
    }
    assert variables[..i] == variables;
    e := Email(subject, body);
  }

  /**
   * With one variable, every `{key}` is replaced by its text (`''` when the
   * value is falsy) and everything between the placeholders is kept.
   */
  lemma RenderOneVariable(parts: seq<string>, key: string, value: Option<string>)
    requires BraceFree(key)
    requires forall i :: 0 <= i < |parts| ==> !Contains(parts[i], Placeholder(key))
    ensures Substitute(Join(parts, Placeholder(key)), [(key, value)]) == Join(parts, ValueText(value))
  {
    PlaceholderDelimited(key);
    assert [(key, value)][..0] == [];
    ReplaceAllJoin(parts, Placeholder(key), ValueText(value));
  }

  /**
   * A placeholder whose key is not among the variables stays in the text,
   * whatever the other keys are replaced by.
   */
  lemma {:induction false} AbsentPlaceholderStays(s: string, vars: Vars, key: string)
    requires BraceFree(key) && Contains(s, Placeholder(key))
    requires forall i :: 0 <= i < |vars| ==> BraceFree(vars[i].0) && vars[i].0 != key
    ensures Contains(Substitute(s, vars), Placeholder(key))
    decreases |vars|
  {
    if vars != [] {
      var n := |vars| - 1;
      AbsentPlaceholderStays(s, vars[..n], key);
      var before := Substitute(s, vars[..n]);
      var p := ContainsIndex(before, Placeholder(key));
      PlaceholderDelimited(key);
      PlaceholderDelimited(vars[n].0);
      assert Placeholder(vars[n].0) != Placeholder(key) by {
        assert Placeholder(vars[n].0)[1..|vars[n].0| + 1] == vars[n].0;
      }
      PlaceholderSurvives(before, Placeholder(vars[n].0), Placeholder(key), ValueText(vars[n].1), p);
    }
  }

  /** `previewEmail(templateId, variables)` */
  method PreviewEmail(templateId: string, variables: Vars) returns (e: Email)
    ensures e == Render(GetTemplate(templateId), variables)
  {
    var template := GetTemplate(templateId);
    e := RenderTemplate(template, variables);
  }

  /** `{ success: true, subject, body }` */
  datatype Sent = Sent(success: bool, subject: string, body: string)

  /**
   * `sendNotification(recipient, templateId, variables)`: the message that
   * is opened for the recipient; it reports success with the rendered
   * subject and body.
   */
  method SendNotification(recipientEmail: string, templateId: string, variables: Vars) returns (r: Sent)
    ensures r.success
    ensures Email(r.subject, r.body) == Render(GetTemplate(templateId), variables)
  {
    var template := GetTemplate(templateId);
    var e := RenderTemplate(template, variables);
    r := Sent(true, e.subject, e.body);
  }

  /**
   * `variablesArray[index] || variablesArray[0]`: an object is never falsy,
   * so only a missing entry falls back; `None` when there is nothing to fall
   * back to.
   */
  function VariablesFor(variablesArray: seq<Option<Vars>>, index: nat): (v: Option<Vars>)
    ensures v.Some? ==> v in variablesArray
    ensures !(index < |variablesArray| && variablesArray[index].Some?) ==>
      v == (if variablesArray != [] then variablesArray[0] else None)
  {
    if index < |variablesArray| && variablesArray[index].Some? then variablesArray[index]
    else if variablesArray != [] then variablesArray[0]
    else None
  }

  /** Each recipient with an entry of its own gets it. */
  lemma OwnVariablesWin(variablesArray: seq<Option<Vars>>, index: nat)
    requires index < |variablesArray| && variablesArray[index].Some?
    ensures VariablesFor(variablesArray, index) == variablesArray[index]
  {
  }

  /** With a single entry, every recipient gets the same variables. */
  lemma SharedVariables(vars: Vars, index: nat)
    ensures VariablesFor([Some(vars)], index) == Some(vars)
  {
  }

  /** A message prepared for one recipient of a bulk send. */
  datatype Outgoing = Outgoing(to: string, email: Email)

  /** The message one recipient of a bulk send gets: `None` without variables to render with. */
  function BulkMessage(recipient: string, template: Template, variables: Option<Vars>): Option<Outgoing>
  {
    if variables.Some? then Some(Outgoing(recipient, Render(template, variables.value))) else None
  }

  /** One scheduled send of `sendBulkNotifications`: nothing is sent without variables. */
  method NotifyRecipient(recipient: string, templateId: string, variables: Option<Vars>) returns (m: Option<Outgoing>)
    ensures m == BulkMessage(recipient, GetTemplate(templateId), variables)
  {
    m := None;
    if variables.Some? {
      var e := SendNotification(recipient, templateId, variables.value);
      m := Some(Outgoing(recipient, Email(e.subject, e.body)));
    }
  }

  /**
   * `sendBulkNotifications(recipients, templateId, variablesArray)`: the
   * message each recipient gets, in order, rendered with the variables
   * chosen for its position.
   */
  method SendBulkNotifications(recipients: seq<string>, templateId: string, variablesArray: seq<Option<Vars>>)
    returns (sent: seq<Option<Outgoing>>)
    ensures sent == BulkMessages(recipients, GetTemplate(templateId), variablesArray, |recipients|)
  {
    ghost var template := GetTemplate(templateId);
    sent := [];
    var index := 0;
    while index < |recipients|
      invariant 0 <= index <= |recipients|
      invariant sent == BulkMessages(recipients, template, variablesArray, index)
    {
      var message := NotifyRecipient(recipients[index], templateId, VariablesFor(variablesArray, index));
      sent := sent + [message];
      index := index + 1;
    }
  }

  /** The messages for the first `n` recipients: one per position, in order. */
  function BulkMessages(recipients: seq<string>, template: Template, variablesArray: seq<Option<Vars>>, n: nat)
    : (r: seq<Option<Outgoing>>)
    requires n <= |recipients|
    ensures |r| == n
    ensures forall i :: 0 <= i < n ==> r[i] == BulkMessage(recipients[i], template, VariablesFor(variablesArray, i))
  {
    if n == 0 then []
    else BulkMessages(recipients, template, variablesArray, n - 1) + [BulkMessage(recipients[n - 1], template, VariablesFor(variablesArray, n - 1))]
  }


  // ----- variables -----

  /** The student fields `generateVariables` reads; `""` stands for a missing one. */
  datatype Student = Student(name: string, email: string, identifier: string)

  /** The item fields `generateVariables` reads; `""` stands for a missing one. */
  datatype ReportedItem = ReportedItem(title: string, category: string, color: string, location: string, createdAt: string, itemType: string)

  /** `a || b` on strings. */
  function Or(a: string, b: string): string
  {
    if a != "" then a else b
  }

  /** The student part of the defaults: `student?.name || 'Student'` and the two contact fields. */
  function StudentVariables(student: Option<Student>): Vars
  {
    var s := if student.Some? then student.value else Student("", "", "");
    [ ("studentName", Some(Or(s.name, "Student"))),
      ("studentEmail", Some(s.email)),
      ("studentId", Some(s.identifier)) ]
  }

  /**
   * The item part of the defaults; `localeDate` formats `createdAt` as
   * `toLocaleDateString` does.
   */
  function ItemVariables(item: Option<ReportedItem>, localeDate: string -> string): Vars
  {
    var it := if item.Some? then item.value else ReportedItem("", "", "", "", "", "");
    [ ("itemTitle", Some(Or(it.title, "Item"))),
      ("category", Some(it.category)),
      ("color", Some(it.color)),
      ("location", Some(it.location)),
      ("reportedDate", Some(if it.createdAt != "" then localeDate(it.createdAt) else "")),
      ("itemType", Some(Or(it.itemType, "lost"))) ]
  }

  /** The fixed part of the defaults; `origin` is `window.location.origin`. */
  function PortalVariables(origin: string): Vars
  {
    [ ("portalUrl", Some(origin)),
      ("pickupLocation", Some("Admin Office, " + "Room 101")),
      ("facultyName", Some("Faculty Member")) ]
  }

  /** The defaults `generateVariables` writes before the caller's entries, in order. */
  function VariableDefaults(student: Option<Student>, item: Option<ReportedItem>, origin: string, localeDate: string -> string): Vars
  {
    StudentVariables(student) + ItemVariables(item, localeDate) + PortalVariables(origin)
  }

  /** A default is looked up in the student part, then the item part, then the fixed part. */
  lemma DefaultsGet(student: Option<Student>, item: Option<ReportedItem>, origin: string, localeDate: string -> string, key: string)
    ensures var s, i, p := StudentVariables(student), ItemVariables(item, localeDate), PortalVariables(origin);
      Get(VariableDefaults(student, item, origin, localeDate), key)
        == if Get(s, key).Some? then Get(s, key) else if Get(i, key).Some? then Get(i, key) else Get(p, key)
  {
    var s, i, p := StudentVariables(student), ItemVariables(item, localeDate), PortalVariables(origin);
    GetConcat(s + i, p, key);
    GetConcat(s, i, key);
  }

  /** Looking up a key in a three-entry object compares it with each key in turn. */
  lemma GetOfThree<V>(o: Obj<V>, k: string)
    requires |o| == 3
    ensures Get(o, k) == if o[0].0 == k then Some(o[0].1) else if o[1].0 == k then Some(o[1].1)
      else if o[2].0 == k then Some(o[2].1) else None
  {
    var t := o[1..];
    var u := t[1..];
    assert t[0] == o[1] && u[0] == o[2] && u[1..] == [];
    assert Get(o, k) == if o[0].0 == k then Some(o[0].1) else Get(t, k);
    assert Get(t, k) == if o[1].0 == k then Some(o[1].1) else Get(u, k);
    assert Get(u, k) == if o[2].0 == k then Some(o[2].1) else Get(u[1..], k);
  }

  /** Looking up a key in a six-entry object compares it with each key in turn. */
  lemma GetOfSix<V>(o: Obj<V>, k: string)
    requires |o| == 6
    ensures Get(o, k) == if o[0].0 == k then Some(o[0].1) else if o[1].0 == k then Some(o[1].1)
      else if o[2].0 == k then Some(o[2].1) else Get(o[3..], k)
  {
    var t := o[1..];
    var u := t[1..];
    assert t[0] == o[1] && u[0] == o[2] && u[1..] == o[3..];
    assert Get(o, k) == if o[0].0 == k then Some(o[0].1) else Get(t, k);
    assert Get(t, k) == if o[1].0 == k then Some(o[1].1) else Get(u, k);
    assert Get(u, k) == if o[2].0 == k then Some(o[2].1) else Get(u[1..], k);
  }

  /** The student keys are found in the student part. */
  lemma StudentDefaults(student: Option<Student>, item: Option<ReportedItem>, origin: string, localeDate: string -> string)
    ensures var s := StudentVariables(student);
      var d := VariableDefaults(student, item, origin, localeDate);
      && Get(d, "studentName") == Some(s[0].1)
      && Get(d, "studentEmail") == Some(s[1].1)
      && Get(d, "studentId") == Some(s[2].1)
  {
    var s := StudentVariables(student);
    GetOfThree(s, "studentName");
    GetOfThree(s, "studentEmail");
    GetOfThree(s, "studentId");
    DefaultsGet(student, item, origin, localeDate, "studentName");
    DefaultsGet(student, item, origin, localeDate, "studentEmail");
    DefaultsGet(student, item, origin, localeDate, "studentId");
  }

  /** The item keys are not student keys, so they are found in the item part. */
  lemma ItemDefaults(student: Option<Student>, item: Option<ReportedItem>, origin: string, localeDate: string -> string)
    ensures var i := ItemVariables(item, localeDate);
      var d := VariableDefaults(student, item, origin, localeDate);
      && Get(d, "itemTitle") == Some(i[0].1)
      && Get(d, "category") == Some(i[1].1)
      && Get(d, "color") == Some(i[2].1)
      && Get(d, "location") == Some(i[3].1)
      && Get(d, "reportedDate") == Some(i[4].1)
      && Get(d, "itemType") == Some(i[5].1)
  {
    var s, i := StudentVariables(student), ItemVariables(item, localeDate);
    ItemKeysFound(item, localeDate);
    GetOfThree(s, "itemTitle");
    GetOfThree(s, "category");
    GetOfThree(s, "color");
    GetOfThree(s, "location");
    GetOfThree(s, "reportedDate");
    GetOfThree(s, "itemType");
    DefaultsGet(student, item, origin, localeDate, "itemTitle");
    DefaultsGet(student, item, origin, localeDate, "category");
    DefaultsGet(student, item, origin, localeDate, "color");
    DefaultsGet(student, item, origin, localeDate, "location");
    DefaultsGet(student, item, origin, localeDate, "reportedDate");
    DefaultsGet(student, item, origin, localeDate, "itemType");
  }

  /** Within the item part each item key finds its own entry. */
  lemma ItemKeysFound(item: Option<ReportedItem>, localeDate: string -> string)
    ensures var i := ItemVariables(item, localeDate);
      && Get(i, "itemTitle") == Some(i[0].1)
      && Get(i, "category") == Some(i[1].1)
      && Get(i, "color") == Some(i[2].1)
      && Get(i, "location") == Some(i[3].1)
      && Get(i, "reportedDate") == Some(i[4].1)
      && Get(i, "itemType") == Some(i[5].1)
  {
    var i := ItemVariables(item, localeDate);
    GetOfSix(i, "itemTitle");
    GetOfSix(i, "category");
    GetOfSix(i, "color");
    GetOfSix(i, "location");
    GetOfSix(i, "reportedDate");
    GetOfSix(i, "itemType");
    GetOfThree(i[3..], "location");
    GetOfThree(i[3..], "reportedDate");
    GetOfThree(i[3..], "itemType");
  }

  /** The fixed keys are neither student nor item keys, so they are found in the fixed part. */
  lemma PortalDefaults(student: Option<Student>, item: Option<ReportedItem>, origin: string, localeDate: string -> string)
    ensures var p := PortalVariables(origin);
      var d := VariableDefaults(student, item, origin, localeDate);
      && Get(d, "portalUrl") == Some(p[0].1)
      && Get(d, "pickupLocation") == Some(p[1].1)
      && Get(d, "facultyName") == Some(p[2].1)
  {
    var s, i, p := StudentVariables(student), ItemVariables(item, localeDate), PortalVariables(origin);
    GetOfThree(s, "portalUrl");
    GetOfThree(s, "pickupLocation");
    GetOfThree(s, "facultyName");
    PortalNotItem(item, localeDate);
    GetOfThree(p, "portalUrl");
    GetOfThree(p, "pickupLocation");
    GetOfThree(p, "facultyName");
    DefaultsGet(student, item, origin, localeDate, "portalUrl");
    DefaultsGet(student, item, origin, localeDate, "pickupLocation");
    DefaultsGet(student, item, origin, localeDate, "facultyName");
  }

  /** No fixed key is an item key. */
  lemma PortalNotItem(item: Option<ReportedItem>, localeDate: string -> string)
    ensures var i := ItemVariables(item, localeDate);
      Get(i, "portalUrl") == None && Get(i, "pickupLocation") == None && Get(i, "facultyName") == None
  {
    var i := ItemVariables(item, localeDate);
    GetOfSix(i, "portalUrl");
    GetOfSix(i, "pickupLocation");
    GetOfSix(i, "facultyName");
    GetOfThree(i[3..], "portalUrl");
    GetOfThree(i[3..], "pickupLocation");
    GetOfThree(i[3..], "facultyName");
  }

  /** Each default key is found with the value its part gives it. */
  lemma DefaultsByKey(student: Option<Student>, item: Option<ReportedItem>, origin: string, localeDate: string -> string)
    ensures var s, i, p := StudentVariables(student), ItemVariables(item, localeDate), PortalVariables(origin);
      var d := VariableDefaults(student, item, origin, localeDate);
      && Get(d, "studentName") == Some(s[0].1)
      && Get(d, "studentEmail") == Some(s[1].1)
      && Get(d, "studentId") == Some(s[2].1)
      && Get(d, "itemTitle") == Some(i[0].1)
      && Get(d, "category") == Some(i[1].1)
      && Get(d, "color") == Some(i[2].1)
      && Get(d, "location") == Some(i[3].1)
      && Get(d, "reportedDate") == Some(i[4].1)
      && Get(d, "itemType") == Some(i[5].1)
      && Get(d, "portalUrl") == Some(p[0].1)
      && Get(d, "pickupLocation") == Some(p[1].1)
      && Get(d, "facultyName") == Some(p[2].1)
  {
    StudentDefaults(student, item, origin, localeDate);
    ItemDefaults(student, item, origin, localeDate);
    PortalDefaults(student, item, origin, localeDate);
  }

  /** `generateVariables(student, item, additionalVars)` */
  function GenerateVariables(student: Option<Student>, item: Option<ReportedItem>, additionalVars: Vars, origin: string, localeDate: string -> string): (v: Vars)
    ensures |v| >= 12 && forall i :: 0 <= i < 12 ==> v[i].0 == VariableDefaults(student, item, origin, localeDate)[i].0
  {
    Spread(VariableDefaults(student, item, origin, localeDate), additionalVars)
  }

  /** Without a student or an item, the named fallbacks and empty strings are used. */
  lemma DefaultsWithoutData(origin: string, localeDate: string -> string)
    ensures var d := VariableDefaults(None, None, origin, localeDate);
      && Get(d, "studentName") == Some(Some("Student")) && Get(d, "itemTitle") == Some(Some("Item"))
      && Get(d, "itemType") == Some(Some("lost")) && Get(d, "studentEmail") == Some(Some(""))
      && Get(d, "studentId") == Some(Some("")) && Get(d, "category") == Some(Some(""))
      && Get(d, "color") == Some(Some("")) && Get(d, "location") == Some(Some(""))
      && Get(d, "reportedDate") == Some(Some("")) && Get(d, "portalUrl") == Some(Some(origin))
      && Get(d, "pickupLocation") == Some(Some("Admin Office, " + "Room 101"))
      && Get(d, "facultyName") == Some(Some("Faculty Member"))
  {
    DefaultsByKey(None, None, origin, localeDate);
  }

  /** Present, non-empty student and item fields are used as they are. */
  lemma DefaultsFromData(student: Student, item: ReportedItem, origin: string, localeDate: string -> string)
    requires student.name != "" && item.title != "" && item.itemType != "" && item.createdAt != ""
    ensures var d := VariableDefaults(Some(student), Some(item), origin, localeDate);
      && Get(d, "studentName") == Some(Some(student.name)) && Get(d, "itemTitle") == Some(Some(item.title))
      && Get(d, "itemType") == Some(Some(item.itemType)) && Get(d, "reportedDate") == Some(Some(localeDate(item.createdAt)))
      && Get(d, "studentEmail") == Some(Some(student.email)) && Get(d, "studentId") == Some(Some(student.identifier))
  {
    DefaultsByKey(Some(student), Some(item), origin, localeDate);
  }

  /** Every entry of `additionalVars` overrides the default of the same name; other defaults stay. */
  lemma {:induction false} AdditionalVarsWin(student: Option<Student>, item: Option<ReportedItem>, additionalVars: Vars, origin: string, localeDate: string -> string, key: string)
    requires DistinctKeys(additionalVars)
    ensures var v := GenerateVariables(student, item, additionalVars, origin, localeDate);
      && (Get(additionalVars, key).Some? ==> Get(v, key) == Get(additionalVars, key))
      && (Get(additionalVars, key).None? ==> Get(v, key) == Get(VariableDefaults(student, item, origin, localeDate), key))
  {
    SpreadGet(VariableDefaults(student, item, origin, localeDate), additionalVars, key);
  }
}
