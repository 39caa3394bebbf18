/** The policy page (src/pages/policy/index.tsx): the policy text is kept
    as lists of paragraphs and clauses; the edit form shows each list as
    one text (paragraphs separated by a blank line, clauses by a line
    break) and saving splits the texts back into lists. */
module Policy {
  import opened Js
  import opened Seqs

  // ------------------------------------------------------------ splitting

  /** A non-empty text, as `filter(Boolean)` keeps. */
  predicate IsFilled(x: string) {
    x != ""
  }

  /** `pieces.map(item => item.trim()).filter(Boolean)`. */
  function Clean(pieces: seq<string>): seq<string> {
    Filter(Map(pieces, Trim), IsFilled)
  }

  /** `splitByLineBreak`: the trimmed, non-empty lines. */
  function SplitByLineBreak(value: string): seq<string> {
    Clean(SplitOn(value, '\n'))
  }

  /** Two newlines in a row end at index `i`. */
  predicate BlankLineAt(x: string, i: nat)
    requires 0 < i < |x|
  {
    x[i - 1] == '\n' && x[i] == '\n'
  }

  /** No two newlines in a row: the text holds no blank line. */
  predicate NoBlankLine(x: string) {
    forall i :: 0 < i < |x| ==> !BlankLineAt(x, i)
  }

  lemma NoBlankLineTail(x: string)
    requires |x| > 0 && NoBlankLine(x)
    ensures NoBlankLine(x[1..])
  {
    forall i | 0 < i < |x| - 1 ensures !BlankLineAt(x[1..], i) {
      assert !BlankLineAt(x, i + 1);
    }
  }

  /** The text with its leading newlines removed. */
  function DropNewlines(s: string): (r: string)
    ensures |r| <= |s| && r == s[|s| - |r|..]
    ensures |r| == 0 || r[0] != '\n'
    ensures |s| > 0 && s[0] == '\n' ==> |r| < |s|
    decreases |s|
  {
    if |s| > 0 && s[0] == '\n' then DropNewlines(s[1..]) else s
  }

  /** `value.split(/\n{2,}/)`: the pieces between the runs of two or more
      newlines. The regular expression is greedy and the search goes left
      to right, so each run is taken whole; the first piece is a prefix of
      the text and no piece holds a blank line. */
  function SplitParagraphs(s: string): (r: seq<string>)
    ensures |r| >= 1 && r[0] <= s
    ensures forall i :: 0 <= i < |r| ==> NoBlankLine(r[i])
    decreases |s|
  {
    if |s| == 0 then [""]
    else if |s| >= 2 && s[0] == '\n' && s[1] == '\n' then [""] + SplitParagraphs(DropNewlines(s))
    else
      var rest := SplitParagraphs(s[1..]);
      var head := [s[0]] + rest[0];
      assert NoBlankLine(head) by {
        forall i | 0 < i < |head| ensures !BlankLineAt(head, i) {
          if i > 1 {
            assert head[i - 1] == rest[0][i - 2] && head[i] == rest[0][i - 1];
            assert !BlankLineAt(rest[0], i - 1);
          } else {
            assert head[1] == s[1];
          }
        }
      }
      [head] + rest[1..]
  }

  /** `splitByParagraph`: the trimmed, non-empty paragraphs. */
  function SplitByParagraph(value: string): seq<string> {
    Clean(SplitParagraphs(value))
  }

  // ------------------------------------------------------------ what the splits give

  /** A clause as the page stores it: non-empty, trimmed, on one line. */
  predicate IsClause(x: string) {
    x != "" && IsTrimmed(x) && '\n' !in x
  }

  /** A paragraph as the page stores it: non-empty, trimmed, without a
      blank line inside. */
  predicate IsParagraph(x: string) {
    x != "" && IsTrimmed(x) && NoBlankLine(x)
  }

  /** Every element of a cleaned list is the non-empty trim of a piece. */
  lemma CleanedFrom(pieces: seq<string>, x: string) returns (k: nat)
    requires x in Clean(pieces)
    ensures k < |pieces| && x == Trim(pieces[k])
    ensures x != "" && IsTrimmed(x)
  {
    var mapped := Map(pieces, Trim);
    var j :| 0 <= j < |Clean(pieces)| && Clean(pieces)[j] == x;
    assert x in mapped;
    k :| 0 <= k < |mapped| && mapped[k] == x;
  }

  lemma TrimKeepsOneLine(p: string)
    requires '\n' !in p
    ensures '\n' !in Trim(p)
  {
    var k := TrimIsSlice(p);
  }

  lemma TrimKeepsNoBlankLine(p: string)
    requires NoBlankLine(p)
    ensures NoBlankLine(Trim(p))
  {
    var k := TrimIsSlice(p);
    SliceKeepsNoBlankLine(p, Trim(p), k);
  }

  /** A slice of a text without a blank line has none either. */
  lemma SliceKeepsNoBlankLine(p: string, t: string, k: nat)
    requires NoBlankLine(p) && k + |t| <= |p|
    requires forall j :: 0 <= j < |t| ==> t[j] == p[k + j]
    ensures NoBlankLine(t)
  {
    forall i | 0 < i < |t| ensures !BlankLineAt(t, i) {
      assert t[i - 1] == p[k + i - 1] && t[i] == p[k + i];
      assert !BlankLineAt(p, k + i);
    }
  }

  /** `splitByLineBreak` gives clauses only. */
  lemma LineBreakGivesClauses(value: string)
    ensures forall x :: x in SplitByLineBreak(value) ==> IsClause(x)
  {
    var pieces := SplitOn(value, '\n');
    forall x | x in SplitByLineBreak(value) ensures IsClause(x) {
      var k := CleanedFrom(pieces, x);
      TrimKeepsOneLine(pieces[k]);
    }
  }

  /** `splitByParagraph` gives paragraphs only. */
  lemma ParagraphGivesParagraphs(value: string)
    ensures forall x :: x in SplitByParagraph(value) ==> IsParagraph(x)
  {
    var pieces := SplitParagraphs(value);
    forall x | x in SplitByParagraph(value) ensures IsParagraph(x) {
      var k := CleanedFrom(pieces, x);
      TrimKeepsNoBlankLine(pieces[k]);
    }
  }

  /** Cleaning a list of non-empty trimmed texts changes nothing. */
  lemma CleanKeepsTrimmed(items: seq<string>)
    requires forall i :: 0 <= i < |items| ==> items[i] != "" && IsTrimmed(items[i])
    ensures Clean(items) == items
  {
    var mapped := Map(items, Trim);
    forall i | 0 <= i < |items| ensures mapped[i] == items[i] {
      TrimmedIsFixpoint(items[i]);
    }
    assert mapped == items;
    FilterKeepsAll(items, IsFilled);
  }

  // ------------------------------------------------------------ round trips

  /** Joining clauses with a line break and splitting again gives them back. */
  lemma LineBreakRoundTrip(items: seq<string>)
    requires forall i :: 0 <= i < |items| ==> IsClause(items[i])
    ensures SplitByLineBreak(Join(items, "\n")) == items
  {
    if |items| == 0 {
      assert Map([""], Trim) == [""];
    } else {
      SplitOnJoin(items, '\n');
      CleanKeepsTrimmed(items);
    }
  }

  /** Splitting, joining and splitting again is splitting once. */
  lemma LineBreakIdempotent(value: string)
    ensures SplitByLineBreak(Join(SplitByLineBreak(value), "\n")) == SplitByLineBreak(value)
  {
    var items := SplitByLineBreak(value);
    LineBreakGivesClauses(value);
    assert forall i :: 0 <= i < |items| ==> items[i] in items;
    LineBreakRoundTrip(items);
  }

  /** A text without a blank line is one paragraph. */
  lemma {:induction false} ParagraphWithoutBlankLine(a: string)
    requires NoBlankLine(a)
    ensures SplitParagraphs(a) == [a]
    decreases |a|
  {
    if |a| > 0 {
      assert |a| >= 2 ==> !BlankLineAt(a, 1);
      NoBlankLineTail(a);
      ParagraphWithoutBlankLine(a[1..]);
      assert a == [a[0]] + a[1..];
    }
  }

  /** A run of `k` newlines. */
  function Newlines(k: nat): (r: string)
    ensures |r| == k && forall i :: 0 <= i < k ==> r[i] == '\n'
  {
    seq(k, _ => '\n')
  }

  /** A run of two or more newlines after a paragraph that does not end in
      a newline, and before a text that does not start with one, splits the
      paragraph off: `/\n{2,}/` takes the whole run, however long. */
  lemma {:induction false} ParagraphAfter(a: string, k: nat, b: string)
    requires NoBlankLine(a) && (|a| == 0 || a[|a| - 1] != '\n')
    requires k >= 2
    requires |b| == 0 || b[0] != '\n'
    ensures SplitParagraphs(a + Newlines(k) + b) == [a] + SplitParagraphs(b)
    decreases |a|
  {
    var s := a + Newlines(k) + b;
    if |a| == 0 {
      assert s == Newlines(k) + b;
      RunFirst(k, b);
    } else {
      assert !(s[0] == '\n' && s[1] == '\n') by {
        if |a| >= 2 {
          assert s[0] == a[0] && s[1] == a[1] && !BlankLineAt(a, 1);
        }
      }
      assert s[1..] == a[1..] + Newlines(k) + b;
      NoBlankLineTail(a);
      ParagraphAfter(a[1..], k, b);
      assert a == [a[0]] + a[1..];
    }
  }

  /** A text that starts with a run of two or more newlines starts with an
      empty piece. */
  lemma RunFirst(k: nat, b: string)
    requires k >= 2
    requires |b| == 0 || b[0] != '\n'
    ensures SplitParagraphs(Newlines(k) + b) == [""] + SplitParagraphs(b)
  {
    var s := Newlines(k) + b;
    DropRun(k, b);
    assert s[0] == '\n' && s[1] == '\n';
  }

  /** A run of newlines before a text that does not start with one is
      dropped whole. */
  lemma {:induction false} DropRun(k: nat, b: string)
    requires |b| == 0 || b[0] != '\n'
    ensures DropNewlines(Newlines(k) + b) == b
  {
    var s := Newlines(k) + b;
    if k == 0 {
      assert s == b;
    } else {
      assert s[0] == '\n';
      assert s[1..] == Newlines(k - 1) + b;
      DropRun(k - 1, b);
    }
  }

  /** Paragraphs joined with blank lines split back into the paragraphs. */
  lemma {:induction false} SplitParagraphsJoin(items: seq<string>)
    requires |items| >= 1
    requires forall i :: 0 <= i < |items| ==> IsParagraph(items[i])
    ensures SplitParagraphs(Join(items, "\n\n")) == items
    decreases |items|
  {
    if |items| == 1 {
      ParagraphWithoutBlankLine(items[0]);
    } else {
      var rest := Join(items[1..], "\n\n");
      SplitParagraphsJoin(items[1..]);
      JoinStartsWithFirst(items[1..], "\n\n");
      assert Newlines(2) == "\n\n";
      ParagraphAfter(items[0], 2, rest);
      assert items == [items[0]] + items[1..];
    }
  }

  /** A join starts with its first item. */
  lemma {:induction false} JoinStartsWithFirst(items: seq<string>, sep: string)
    requires |items| >= 1
    ensures items[0] <= Join(items, sep)
  {
  }

  /** Joining paragraphs with a blank line and splitting again gives them
      back. */
  lemma ParagraphRoundTrip(items: seq<string>)
    requires forall i :: 0 <= i < |items| ==> IsParagraph(items[i])
    ensures SplitByParagraph(Join(items, "\n\n")) == items
  {
    if |items| == 0 {
      assert Map([""], Trim) == [""];
    } else {
      SplitParagraphsJoin(items);
      CleanKeepsTrimmed(items);
    }
  }

  /** Splitting into paragraphs, joining and splitting again is splitting
      once. */
  lemma ParagraphIdempotent(value: string)
    ensures SplitByParagraph(Join(SplitByParagraph(value), "\n\n")) == SplitByParagraph(value)
  {
    var items := SplitByParagraph(value);
    ParagraphGivesParagraphs(value);
    assert forall i :: 0 <= i < |items| ==> items[i] in items;
    ParagraphRoundTrip(items);
  }

  // ------------------------------------------------------------ the page

  /** The policy content the page shows. */
  datatype PolicyContent = PolicyContent(
    overview: seq<string>,
    disclaimers: seq<string>,
    privacy: seq<string>,
    privacyRetention: string,
    governance: seq<string>,
    updates: seq<string>,
    lastUpdated: string)

  /** The texts of the edit form, one per field of the content. */
  datatype PolicyForm = PolicyForm(
    overview: string,
    disclaimers: string,
    privacy: string,
    privacyRetention: string,
    governance: string,
    updates: string,
    lastUpdated: string)

  const DefaultRetention: string :=
    "我们会在业务需求与法规要求允许的范围内保存反馈及用户数据，" +
    "并提供导出与脱敏支持。" +
    "若需删除或匿名化特定数据，" +
    "请提交正式申请并说明原因，" +
    "我们将在核验身份后予以协助。"
  const DefaultLastUpdated: string := "2025 年 1 月 20 日"

  /** `defaultPolicyContent`, the content the page starts with. */
  const DefaultContent: PolicyContent := PolicyContent(
    [
      "本政策适用于 Crew Dashboard 平台及其配套的移动端、通知服务等功能模块。我们致力于为乘务运营团队提供安全、透明、可追溯的反馈与信息管理体验，并确保相关数据在采集、处理与存储的全流程均符合法律法规与公司制度。",
      "如您对以下条款有任何疑问或需进一步说明，可通过平台内“联系我们”入口提交诉求，我们会在两个工作日内响应。"],
    [
      "本平台旨在支持乘务运营及信息协同，提供的数据和建议仅供内部决策参考，任何基于本平台信息所做的对外承诺需经公司授权。",
      "因不可抗力、第三方系统故障或网络异常导致的服务中断、数据延迟或丢失，平台将协助排查，但不承担由此产生的直接或间接损失。",
      "用户提交的内容由其本人负责，若内容涉及隐私、版权或其他法律风险，提交者需自行确认并承担相应责任。"],
    [
      "严格遵守国家和行业对于个人信息保护的法律法规，未经授权不会向第三方披露、出售或出租用户信息。",
      "对收集的姓名、联系方式、排班等敏感信息均采用分级权限管理与加密存储，确保数据在传输及存储过程中的安全性。",
      "仅在反馈处理、服务保障或合规要求范围内使用用户信息，超出用途前将再次征得授权并提供退出机制。"],
    DefaultRetention,
    [
      "建立反馈全流程追踪机制，对工单指派、处理与验收进行透明记录，以便审计与复盘。",
      "定期回顾平台使用场景与数据分类，持续优化最小权限原则，避免无关人员访问敏感信息。",
      "针对外部系统集成，优先采用经过安全评估的接口与协议，并设置访问频率与异常告警。"],
    [
      "如条款发生调整，将通过站内通知、邮件或公告形式提前告知，重大变更将提供不少于七日的缓冲期。",
      "用户在通知后继续使用平台，即视为理解并同意更新后的政策；若有异议，可联系运营团队协助处理。"],
    DefaultLastUpdated)

  /** `usePolicyFormInitialValues`: the paragraphs joined with a blank line,
      the clauses with a line break, the two single texts as they are. */
  function InitialValues(c: PolicyContent): PolicyForm {
    PolicyForm(
      Join(c.overview, "\n\n"),
      Join(c.disclaimers, "\n"),
      Join(c.privacy, "\n"),
      c.privacyRetention,
      Join(c.governance, "\n"),
      Join(c.updates, "\n"),
      c.lastUpdated)
  }

  /** `form.validateFields()`: every field is `required`, which rejects an
      empty text; a text of white space passes. */
  predicate Validates(v: PolicyForm) {
    v.overview != "" && v.disclaimers != "" && v.privacy != "" && v.privacyRetention != "" &&
    v.governance != "" && v.updates != "" && v.lastUpdated != ""
  }

  /** All white space (or empty). */
  predicate IsBlank(x: string) {
    forall i :: 0 <= i < |x| ==> IsSpace(x[i])
  }

  /** `text.trim() || fallback`: the fallback for a blank text, the trimmed
      text otherwise. */
  function TrimOr(text: string, fallback: string): (r: string)
    ensures IsBlank(text) ==> r == fallback
    ensures !IsBlank(text) ==> r == Trim(text) && r != ""
  {
    TrimEmptyIffBlank(text);
    var t := Trim(text);
    if t != "" then t else fallback
  }

  /** `handleSave`: a form that fails validation leaves the content as it
      is; otherwise the overview is split into paragraphs, the other lists
      into clauses, and the two single texts are trimmed, blank ones
      falling back to the default content's. */
  function HandleSave(current: PolicyContent, v: PolicyForm): (r: PolicyContent)
    ensures !Validates(v) ==> r == current
    ensures Validates(v) && IsBlank(v.privacyRetention) ==> r.privacyRetention == DefaultRetention
    ensures Validates(v) && !IsBlank(v.privacyRetention) ==> r.privacyRetention == Trim(v.privacyRetention)
    ensures Validates(v) && IsBlank(v.lastUpdated) ==> r.lastUpdated == DefaultLastUpdated
    ensures Validates(v) && !IsBlank(v.lastUpdated) ==> r.lastUpdated == Trim(v.lastUpdated)
  {
    if !Validates(v) then current
    else
      PolicyContent(
        SplitByParagraph(v.overview),
        SplitByLineBreak(v.disclaimers),
        SplitByLineBreak(v.privacy),
        TrimOr(v.privacyRetention, DefaultRetention),
        SplitByLineBreak(v.governance),
        SplitByLineBreak(v.updates),
        TrimOr(v.lastUpdated, DefaultLastUpdated))
  }

  predicate AllClauses(xs: seq<string>) {
    forall i :: 0 <= i < |xs| ==> IsClause(xs[i])
  }

  predicate AllParagraphs(xs: seq<string>) {
    forall i :: 0 <= i < |xs| ==> IsParagraph(xs[i])
  }

  /** A single text as the page keeps it: non-empty and trimmed. */
  predicate IsSingleText(x: string) {
    x != "" && IsTrimmed(x)
  }

  /** Content in the shape a save leaves it in. */
  predicate WellFormed(c: PolicyContent) {
    AllParagraphs(c.overview) &&
    AllClauses(c.disclaimers) && AllClauses(c.privacy) && AllClauses(c.governance) && AllClauses(c.updates) &&
    IsSingleText(c.privacyRetention) && IsSingleText(c.lastUpdated)
  }

  lemma LineBreakGivesAllClauses(value: string)
    ensures AllClauses(SplitByLineBreak(value))
  {
    var xs := SplitByLineBreak(value);
    LineBreakGivesClauses(value);
    assert forall i :: 0 <= i < |xs| ==> xs[i] in xs;
  }

  /** The texts a blank field falls back to are non-empty and trimmed. */
  lemma FallbacksAreSingleTexts()
    ensures IsSingleText(DefaultRetention) && IsSingleText(DefaultLastUpdated)
  {
    var n := |DefaultRetention|;
    assert DefaultRetention[0] == '我' && DefaultRetention[n - 1] == '。';
    assert DefaultLastUpdated[0] == '2' && DefaultLastUpdated[|DefaultLastUpdated| - 1] == '日';
  }

  lemma ParagraphGivesAllParagraphs(value: string)
    ensures AllParagraphs(SplitByParagraph(value))
  {
    var xs := SplitByParagraph(value);
    ParagraphGivesParagraphs(value);
    assert forall i :: 0 <= i < |xs| ==> xs[i] in xs;
  }

  lemma TrimOrIsSingleText(text: string, fallback: string)
    requires IsSingleText(fallback)
    ensures IsSingleText(TrimOr(text, fallback))
  {
  }

  /** Saving keeps the content well formed, whatever the form holds. */
  lemma SaveKeepsWellFormed(current: PolicyContent, v: PolicyForm)
    requires WellFormed(current)
    ensures WellFormed(HandleSave(current, v))
  {
    if Validates(v) {
      FallbacksAreSingleTexts();
      ParagraphGivesAllParagraphs(v.overview);
      LineBreakGivesAllClauses(v.disclaimers);
      LineBreakGivesAllClauses(v.privacy);
      LineBreakGivesAllClauses(v.governance);
      LineBreakGivesAllClauses(v.updates);
      TrimOrIsSingleText(v.privacyRetention, DefaultRetention);
      TrimOrIsSingleText(v.lastUpdated, DefaultLastUpdated);
    }
  }

  /** Opening the editor and saving without a change keeps well-formed
      content as it is: a list that joins to an empty text fails
      validation, which keeps the content too. */
  lemma SaveUnchangedKeeps(c: PolicyContent)
    requires WellFormed(c)
    ensures HandleSave(c, InitialValues(c)) == c
  {
    var v := InitialValues(c);
    if Validates(v) {
      ParagraphRoundTrip(c.overview);
      LineBreakRoundTrip(c.disclaimers);
      LineBreakRoundTrip(c.privacy);
      LineBreakRoundTrip(c.governance);
      LineBreakRoundTrip(c.updates);
      TrimmedIsFixpoint(c.privacyRetention);
      TrimmedIsFixpoint(c.lastUpdated);
      TrimEmptyIffBlank(c.privacyRetention);
      TrimEmptyIffBlank(c.lastUpdated);
    }
  }

  /** After any save, reopening the editor and saving again changes
      nothing. */
  lemma SaveIsStable(current: PolicyContent, v: PolicyForm)
    requires WellFormed(current)
    ensures var r := HandleSave(current, v); HandleSave(r, InitialValues(r)) == r
  {
    SaveKeepsWellFormed(current, v);
    SaveUnchangedKeeps(HandleSave(current, v));
  }
}
