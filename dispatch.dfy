/**
 * The tool dispatcher of components/ToolRenderer.tsx (ToolRenderer): a tool
 * id is looked up in the catalog and then matched against a fixed sequence
 * of rules, the first matching rule choosing the handler component.
 */
module Dispatch {
  import opened Optional
  import opened Types
  import opened JsStrings

  /** The handler components a catalogued tool can be rendered with. */
  datatype Kind =
    | AIChatbot | JsonFormatter | QRCodeGenerator | ImageToBase64 | ColorPicker | PasswordGenerator
    | VideoToolbox | PDFToolbox
    | UnitConverter | Calculator | GenericGenerator | TextProcessor | SecurityTool | SocialMediaTool
    | ModuleReady  // the "Tool Module Ready" panel showing the tool's name

  /** What ToolRenderer renders: the "not found" message, or a handler for the catalogued tool. */
  datatype Handler = NotFound | Render(kind: Kind, tool: Tool)

  /** `k` is the first position of the catalog whose id is `id`. */
  predicate FirstWithId(catalog: seq<Tool>, id: string, k: int) {
    0 <= k < |catalog| && catalog[k].id == id &&
    forall j | 0 <= j < k :: catalog[j].id != id
  }

  /** `TOOLS.find(t => t.id === toolId)` */
  function Find(catalog: seq<Tool>, id: string): (r: Option<Tool>)
    ensures r.None? <==> forall k | 0 <= k < |catalog| :: catalog[k].id != id
    ensures r.Some? ==> exists k :: FirstWithId(catalog, id, k) && catalog[k] == r.value
  {
    if catalog == [] then None
    else if catalog[0].id == id then
      assert FirstWithId(catalog, id, 0);
      Some(catalog[0])
    else
      var r := Find(catalog[1..], id);
      assert r.Some? ==> exists k :: FirstWithId(catalog, id, k) && catalog[k] == r.value by {
        if r.Some? {
          var k :| FirstWithId(catalog[1..], id, k) && catalog[1..][k] == r.value;
          assert FirstWithId(catalog, id, k + 1);
        }
      }
      assert r.None? ==> forall k | 0 <= k < |catalog| :: catalog[k].id != id by {
        if r.None? {
          forall k | 0 <= k < |catalog| ensures catalog[k].id != id {
            if k > 0 { assert catalog[k] == catalog[1..][k - 1]; }
          }
        }
      }
      r
  }

  /**
   * The rule chain of ToolRenderer applied to an id: the exact-id switch,
   * the `video-` and `pdf-` prefixes, then the keyword groups.
   */
  function ClassifyId(id: string): Kind {
    if id == "ai-chat" then AIChatbot
    else if id == "json-format" then JsonFormatter
    else if id == "qr-gen" then QRCodeGenerator
    else if id == "img-base64" then ImageToBase64
    else if id == "color-picker" then ColorPicker
    else if id == "pass-gen" then PasswordGenerator
    else if StartsWith(id, "video-") then VideoToolbox
    else if StartsWith(id, "pdf-") then PDFToolbox
    else KeywordKind(id)
  }

  /** The six keyword groups of ToolRenderer, in order, and the "Tool Module Ready" default. */
  function KeywordKind(id: string): Kind {
    if Contains(id, "-conv") || Contains(id, "unit-") then UnitConverter
    else if Contains(id, "calc") || Contains(id, "emi") || Contains(id, "bmi") then Calculator
    else if Contains(id, "gen") || Contains(id, "lorem") || Contains(id, "random") then GenericGenerator
    else if Contains(id, "word-") || Contains(id, "char-") || Contains(id, "case-") ||
            Contains(id, "text") || Contains(id, "url-") then TextProcessor
    else if Contains(id, "hash") || Contains(id, "md5") || Contains(id, "ssl") || Contains(id, "ip-") then SecurityTool
    else if Contains(id, "yt-") || Contains(id, "down") || Contains(id, "insta-") then SocialMediaTool
    else ModuleReady
  }

  /**
   * ToolRenderer: catalog lookup first, then the rule chain on the found
   * tool's id. A miss, and only a miss, renders "Tool definition not
   * found."; a catalogued tool is rendered with the handler of the first
   * rule of the table that matches its id.
   */
  function Resolve(id: string, catalog: seq<Tool>): (h: Handler)
    ensures h.NotFound? <==> forall k | 0 <= k < |catalog| :: catalog[k].id != id
    ensures h.Render? ==> h.tool.id == id && h.kind == Select(Rules, id)
  {
    match Find(catalog, id)
    case None => NotFound
    case Some(tool) =>
      ClassifyAgreesWithTable(tool.id);
      Render(ClassifyId(tool.id), tool)
  }

  // ---------------------------------------------------------------------
  // The same dispatch as an explicit ordered rule table.

  datatype Rule =
    | Exact(id: string, kind: Kind)
    | Prefix(prefix: string, kind: Kind)
    | AnyOf(needles: seq<string>, kind: Kind)

  /** Some needle of `needles` occurs in `id`. */
  predicate ContainsAny(id: string, needles: seq<string>) {
    exists j | 0 <= j < |needles| :: Contains(id, needles[j])
  }

  predicate Matches(rule: Rule, id: string) {
    match rule
    case Exact(e, _) => id == e
    case Prefix(p, _) => StartsWith(id, p)
    case AnyOf(needles, _) => ContainsAny(id, needles)
  }

  const Rules: seq<Rule> := [
    Exact("ai-chat", AIChatbot),
    Exact("json-format", JsonFormatter),
    Exact("qr-gen", QRCodeGenerator),
    Exact("img-base64", ImageToBase64),
    Exact("color-picker", ColorPicker),
    Exact("pass-gen", PasswordGenerator),
    Prefix("video-", VideoToolbox),
    Prefix("pdf-", PDFToolbox),
    AnyOf(["-conv", "unit-"], UnitConverter),
    AnyOf(["calc", "emi", "bmi"], Calculator),
    AnyOf(["gen", "lorem", "random"], GenericGenerator),
    AnyOf(["word-", "char-", "case-", "text", "url-"], TextProcessor),
    AnyOf(["hash", "md5", "ssl", "ip-"], SecurityTool),
    AnyOf(["yt-", "down", "insta-"], SocialMediaTool)
  ]

  /** Rule `i` matches `id` and no earlier rule does. */
  predicate FirstMatching(rules: seq<Rule>, id: string, i: int) {
    0 <= i < |rules| && Matches(rules[i], id) &&
    forall j | 0 <= j < i :: !Matches(rules[j], id)
  }

  /** The position of the first rule that matches `id`, if any. */
  function FirstMatch(rules: seq<Rule>, id: string): (r: Option<nat>)
    ensures r.Some? ==> FirstMatching(rules, id, r.value)
    ensures r.None? ==> forall j | 0 <= j < |rules| :: !Matches(rules[j], id)
  {
    if rules == [] then None
    else if Matches(rules[0], id) then Some(0)
    else
      var r := FirstMatch(rules[1..], id);
      assert forall j | 1 <= j < |rules| :: rules[j] == rules[1..][j - 1];
      if r.Some? then Some(r.value + 1) else None
  }

  /** Evaluate the table: the first matching rule's kind, else the default. */
  function Select(rules: seq<Rule>, id: string): Kind {
    match FirstMatch(rules, id)
    case Some(i) => rules[i].kind
    case None => ModuleReady
  }

  // ---------------------------------------------------------------------
  // Properties of the dispatch.

  /** What each rule of the table tests, written as ToolRenderer tests it. */
  lemma RuleConditions(id: string)
    ensures Matches(Rules[0], id) <==> id == "ai-chat"
    ensures Matches(Rules[1], id) <==> id == "json-format"
    ensures Matches(Rules[2], id) <==> id == "qr-gen"
    ensures Matches(Rules[3], id) <==> id == "img-base64"
    ensures Matches(Rules[4], id) <==> id == "color-picker"
    ensures Matches(Rules[5], id) <==> id == "pass-gen"
    ensures Matches(Rules[6], id) <==> StartsWith(id, "video-")
    ensures Matches(Rules[7], id) <==> StartsWith(id, "pdf-")
    ensures Matches(Rules[8], id) <==> Contains(id, "-conv") || Contains(id, "unit-")
    ensures Matches(Rules[9], id) <==> Contains(id, "calc") || Contains(id, "emi") || Contains(id, "bmi")
    ensures Matches(Rules[10], id) <==> Contains(id, "gen") || Contains(id, "lorem") || Contains(id, "random")
    ensures Matches(Rules[11], id) <==>
      Contains(id, "word-") || Contains(id, "char-") || Contains(id, "case-") ||
      Contains(id, "text") || Contains(id, "url-")
    ensures Matches(Rules[12], id) <==>
      Contains(id, "hash") || Contains(id, "md5") || Contains(id, "ssl") || Contains(id, "ip-")
    ensures Matches(Rules[13], id) <==> Contains(id, "yt-") || Contains(id, "down") || Contains(id, "insta-")
  {
    KeywordConditions(id);
  }

  /** What each keyword rule of the table tests. */
  lemma KeywordConditions(id: string)
    ensures Matches(Rules[8], id) <==> Contains(id, "-conv") || Contains(id, "unit-")
    ensures Matches(Rules[9], id) <==> Contains(id, "calc") || Contains(id, "emi") || Contains(id, "bmi")
    ensures Matches(Rules[10], id) <==> Contains(id, "gen") || Contains(id, "lorem") || Contains(id, "random")
    ensures Matches(Rules[11], id) <==>
      Contains(id, "word-") || Contains(id, "char-") || Contains(id, "case-") ||
      Contains(id, "text") || Contains(id, "url-")
    ensures Matches(Rules[12], id) <==>
      Contains(id, "hash") || Contains(id, "md5") || Contains(id, "ssl") || Contains(id, "ip-")
    ensures Matches(Rules[13], id) <==> Contains(id, "yt-") || Contains(id, "down") || Contains(id, "insta-")
  {
    AnyOfTwo(id, "-conv", "unit-");
    AnyOfThree(id, "calc", "emi", "bmi");
    AnyOfThree(id, "gen", "lorem", "random");
    AnyOfFive(id, "word-", "char-", "case-", "text", "url-");
    AnyOfFour(id, "hash", "md5", "ssl", "ip-");
    AnyOfThree(id, "yt-", "down", "insta-");
  }

  lemma AnyOfTwo(id: string, a: string, b: string)
    ensures ContainsAny(id, [a, b]) <==> Contains(id, a) || Contains(id, b)
  {
    var ns := [a, b];
    if Contains(id, a) { assert Contains(id, ns[0]); }
    if Contains(id, b) { assert Contains(id, ns[1]); }
  }

  lemma AnyOfThree(id: string, a: string, b: string, c: string)
    ensures ContainsAny(id, [a, b, c]) <==> Contains(id, a) || Contains(id, b) || Contains(id, c)
  {
    var ns := [a, b, c];
    if Contains(id, a) { assert Contains(id, ns[0]); }
    if Contains(id, b) { assert Contains(id, ns[1]); }
    if Contains(id, c) { assert Contains(id, ns[2]); }
  }

  lemma AnyOfFour(id: string, a: string, b: string, c: string, d: string)
    ensures ContainsAny(id, [a, b, c, d]) <==>
      Contains(id, a) || Contains(id, b) || Contains(id, c) || Contains(id, d)
  {
    var ns := [a, b, c, d];
    if Contains(id, a) { assert Contains(id, ns[0]); }
    if Contains(id, b) { assert Contains(id, ns[1]); }
    if Contains(id, c) { assert Contains(id, ns[2]); }
    if Contains(id, d) { assert Contains(id, ns[3]); }
  }

  lemma AnyOfFive(id: string, a: string, b: string, c: string, d: string, e: string)
    ensures ContainsAny(id, [a, b, c, d, e]) <==>
      Contains(id, a) || Contains(id, b) || Contains(id, c) || Contains(id, d) || Contains(id, e)
  {
    var ns := [a, b, c, d, e];
    if Contains(id, a) { assert Contains(id, ns[0]); }
    if Contains(id, b) { assert Contains(id, ns[1]); }
    if Contains(id, c) { assert Contains(id, ns[2]); }
    if Contains(id, d) { assert Contains(id, ns[3]); }
    if Contains(id, e) { assert Contains(id, ns[4]); }
  }

  /** When rule `i` is the first to match, the table selects its kind. */
  lemma SelectFirstMatching(rules: seq<Rule>, id: string, i: int)
    requires FirstMatching(rules, id, i)
    ensures Select(rules, id) == rules[i].kind
  {
    var r := FirstMatch(rules, id);
    assert r.Some?;
    assert !(r.value < i);
    assert !(i < r.value);
  }

  /** A needle holding a character the haystack lacks does not occur in it. */
  lemma LacksChar(s: string, t: string, c: char)
    requires c in t && c !in s
    ensures !Contains(s, t)
  {
    var k :| 0 <= k < |t| && t[k] == c;
    forall i | 0 <= i && i + |t| <= |s| ensures !OccursAt(s, t, i) {
      assert s[i..i + |t|][k] == s[i + k];
    }
  }

  /** Evaluating the table from rule `k` on: rule `k` if it matches, else the rules after it. */
  lemma SelectFrom(rules: seq<Rule>, id: string, k: int)
    requires 0 <= k < |rules|
    ensures Select(rules[k..], id) ==
      if Matches(rules[k], id) then rules[k].kind else Select(rules[k + 1..], id)
  {
    assert rules[k..][0] == rules[k];
    assert rules[k..][1..] == rules[k + 1..];
  }

  /** The keyword groups of the chain and the keyword rules of the table agree. */
  lemma KeywordsAgreeWithTable(id: string)
    ensures KeywordKind(id) == Select(Rules[8..], id)
  {
    AnyOfTwo(id, "-conv", "unit-");
    AnyOfThree(id, "calc", "emi", "bmi");
    AnyOfThree(id, "gen", "lorem", "random");
    SelectFrom(Rules, id, 8);
    SelectFrom(Rules, id, 9);
    SelectFrom(Rules, id, 10);
    LaterKeywordsAgreeWithTable(id);
  }

  /** The text, security and social groups of the chain and the last three rules agree. */
  lemma LaterKeywordsAgreeWithTable(id: string)
    ensures Select(Rules[11..], id) ==
      if Contains(id, "word-") || Contains(id, "char-") || Contains(id, "case-") ||
         Contains(id, "text") || Contains(id, "url-") then TextProcessor
      else if Contains(id, "hash") || Contains(id, "md5") || Contains(id, "ssl") || Contains(id, "ip-") then SecurityTool
      else if Contains(id, "yt-") || Contains(id, "down") || Contains(id, "insta-") then SocialMediaTool
      else ModuleReady
  {
    AnyOfFive(id, "word-", "char-", "case-", "text", "url-");
    AnyOfFour(id, "hash", "md5", "ssl", "ip-");
    AnyOfThree(id, "yt-", "down", "insta-");
    SelectFrom(Rules, id, 11);
    SelectFrom(Rules, id, 12);
    SelectFrom(Rules, id, 13);
    assert Rules[14..] == [];
  }

  /** The if-chain of ToolRenderer and the ordered rule table pick the same handler for every id. */
  lemma ClassifyAgreesWithTable(id: string)
    ensures ClassifyId(id) == Select(Rules, id)
  {
    ExactAgreesWithTable(id);
    PrefixesAgreeWithTable(id);
  }

  /** The exact-id switch of the chain and the first six rules of the table agree. */
  lemma ExactAgreesWithTable(id: string)
    ensures Select(Rules, id) ==
      if id == "ai-chat" then AIChatbot
      else if id == "json-format" then JsonFormatter
      else if id == "qr-gen" then QRCodeGenerator
      else if id == "img-base64" then ImageToBase64
      else if id == "color-picker" then ColorPicker
      else if id == "pass-gen" then PasswordGenerator
      else Select(Rules[6..], id)
  {
    assert Rules[..3] == [
      Exact("ai-chat", AIChatbot), Exact("json-format", JsonFormatter), Exact("qr-gen", QRCodeGenerator)];
    ExactStep(id, 0);
    ExactStep(id, 1);
    ExactStep(id, 2);
    assert Rules[0..] == Rules;
    LaterExactAgreeWithTable(id);
  }

  /** The last three exact ids of the switch and rules 3 to 5 of the table agree. */
  lemma LaterExactAgreeWithTable(id: string)
    ensures Select(Rules[3..], id) ==
      if id == "img-base64" then ImageToBase64
      else if id == "color-picker" then ColorPicker
      else if id == "pass-gen" then PasswordGenerator
      else Select(Rules[6..], id)
  {
    assert Rules[3..6] == [
      Exact("img-base64", ImageToBase64), Exact("color-picker", ColorPicker), Exact("pass-gen", PasswordGenerator)];
    ExactStep(id, 3);
    ExactStep(id, 4);
    ExactStep(id, 5);
  }

  /** Evaluating the table from exact rule `k` on. */
  lemma ExactStep(id: string, k: int)
    requires 0 <= k < 6
    ensures Rules[k].Exact?
    ensures Select(Rules[k..], id) ==
      if id == Rules[k].id then Rules[k].kind else Select(Rules[k + 1..], id)
  {
    SelectFrom(Rules, id, k);
  }

  /** After the exact ids, the prefix tests and keyword groups of the chain agree with the rest of the table. */
  lemma PrefixesAgreeWithTable(id: string)
    ensures Select(Rules[6..], id) ==
      if StartsWith(id, "video-") then VideoToolbox
      else if StartsWith(id, "pdf-") then PDFToolbox
      else KeywordKind(id)
  {
    KeywordsAgreeWithTable(id);
    SelectFrom(Rules, id, 6);
    SelectFrom(Rules, id, 7);
  }

  /** The position of the rule of kind `k` in Rules, the length of Rules for the default. */
  function RuleOf(k: Kind): nat {
    match k
    case AIChatbot => 0
    case JsonFormatter => 1
    case QRCodeGenerator => 2
    case ImageToBase64 => 3
    case ColorPicker => 4
    case PasswordGenerator => 5
    case VideoToolbox => 6
    case PDFToolbox => 7
    case UnitConverter => 8
    case Calculator => 9
    case GenericGenerator => 10
    case TextProcessor => 11
    case SecurityTool => 12
    case SocialMediaTool => 13
    case ModuleReady => 14
  }

  /** Every rule of the table has its own kind, and none is the default. */
  lemma RuleKindsDistinct(i: int)
    requires 0 <= i < |Rules|
    ensures RuleOf(Rules[i].kind) == i
  {
  }

  /**
   * Precedence, in both directions: the handler is the one of rule `i`
   * exactly when rule `i` matches and no earlier rule does.
   */
  lemma ClassifyByRule(id: string, i: int)
    requires 0 <= i < |Rules|
    ensures ClassifyId(id) == Rules[i].kind <==> FirstMatching(Rules, id, i)
  {
    ClassifyAgreesWithTable(id);
    SelectByRule(id, i);
  }

  lemma SelectByRule(id: string, i: int)
    requires 0 <= i < |Rules|
    ensures Select(Rules, id) == Rules[i].kind <==> FirstMatching(Rules, id, i)
  {
    RuleKindsDistinct(i);
    if FirstMatching(Rules, id, i) {
      SelectFirstMatching(Rules, id, i);
    }
    var r := FirstMatch(Rules, id);
    if r.Some? {
      RuleKindsDistinct(r.value);
    }
  }

  /** The "Tool Module Ready" default is chosen exactly when no rule matches. */
  lemma DefaultIffNoRuleMatches(id: string)
    ensures ClassifyId(id) == ModuleReady <==> forall j | 0 <= j < |Rules| :: !Matches(Rules[j], id)
  {
    ClassifyAgreesWithTable(id);
    var r := FirstMatch(Rules, id);
    if r.Some? {
      RuleKindsDistinct(r.value);
    }
  }

  /**
   * Dispatch is total: a catalogued id is rendered with the first catalog
   * entry of that id, by the handler the rule chain picks for the id.
   */
  lemma CataloguedIdIsRendered(id: string, catalog: seq<Tool>, k: int)
    requires FirstWithId(catalog, id, k)
    ensures Resolve(id, catalog) == Render(ClassifyId(id), catalog[k])
  {
    var r := Find(catalog, id);
    assert r.Some?;
    var m :| FirstWithId(catalog, id, m) && catalog[m] == r.value;
    assert !(m < k) && !(k < m);
  }

  /** The reserved ids bypass every prefix and keyword rule. */
  lemma ExactIdsWin(id: string, i: int)
    requires 0 <= i < 6 && Rules[i].Exact? && id == Rules[i].id
    ensures ClassifyId(id) == Rules[i].kind
  {
  }

  /** `qr-gen` contains `gen`, so the generator keyword rule matches it, yet it gets its own handler. */
  lemma QrGenIsExact()
    ensures Contains("qr-gen", "gen") && Matches(Rules[10], "qr-gen")
    ensures ClassifyId("qr-gen") == QRCodeGenerator
  {
    assert OccursAt("qr-gen", "gen", 3);
    AnyOfThree("qr-gen", "gen", "lorem", "random");
  }

  /** The same holds for `pass-gen`. */
  lemma PassGenIsExact()
    ensures Contains("pass-gen", "gen") && Matches(Rules[10], "pass-gen")
    ensures ClassifyId("pass-gen") == PasswordGenerator
  {
    assert OccursAt("pass-gen", "gen", 5);
    AnyOfThree("pass-gen", "gen", "lorem", "random");
  }

  /** Every `video-` id goes to the video toolbox, before any keyword rule. */
  lemma VideoPrefixWins(id: string)
    requires StartsWith(id, "video-")
    ensures ClassifyId(id) == VideoToolbox
  {
    assert id[0] == 'v';
  }

  /** `video-gen` contains `gen` but is a video tool. */
  lemma VideoGenIsVideo()
    ensures Contains("video-gen", "gen") && ClassifyId("video-gen") == VideoToolbox
  {
    assert OccursAt("video-gen", "gen", 6);
  }

  /** Every `pdf-` id goes to the PDF toolbox, before any keyword rule. */
  lemma PdfPrefixWins(id: string)
    requires StartsWith(id, "pdf-")
    ensures ClassifyId(id) == PDFToolbox
  {
    assert id[0] == 'p' && id[1] == 'd';
  }

  /** Which keywords of the first three groups occur in `random-text`. */
  lemma RandomTextNeedles(id: string)
    requires id == "random-text"
    ensures Contains(id, "random") && Contains(id, "text")
    ensures !Contains(id, "-conv") && !Contains(id, "unit-")
    ensures !Contains(id, "calc") && !Contains(id, "emi") && !Contains(id, "bmi")
  {
    assert OccursAt(id, "random", 0);
    assert OccursAt(id, "text", 7);
    RandomTextLacks(id);
  }

  /** `random-text` has no unit and no calculator keyword. */
  lemma RandomTextLacks(id: string)
    requires id == "random-text"
    ensures !Contains(id, "-conv") && !Contains(id, "unit-")
    ensures !Contains(id, "calc") && !Contains(id, "emi") && !Contains(id, "bmi")
  {
    assert 'c' !in id && 'u' !in id && 'i' !in id && 'b' !in id;
    LacksChar(id, "-conv", 'c');
    LacksChar(id, "unit-", 'u');
    LacksChar(id, "calc", 'c');
    LacksChar(id, "emi", 'i');
    LacksChar(id, "bmi", 'b');
  }

  /** `random-text` is no reserved id and has neither prefix, so the keyword groups decide. */
  lemma RandomTextReachesKeywords(id: string)
    requires id == "random-text"
    ensures ClassifyId(id) == KeywordKind(id)
  {
    assert id[0] == 'r' && id[7] == 't';
  }

  /**
   * The keyword groups are tried in order: `random-text` matches both the
   * generator and the text group, and the earlier generator group wins.
   */
  lemma KeywordGroupsInOrder(id: string)
    requires id == "random-text"
    ensures Matches(Rules[10], id) && Matches(Rules[11], id)
    ensures ClassifyId(id) == GenericGenerator
  {
    RandomTextNeedles(id);
    RandomTextReachesKeywords(id);
    AnyOfThree(id, "gen", "lorem", "random");
    AnyOfFive(id, "word-", "char-", "case-", "text", "url-");
  }
}
