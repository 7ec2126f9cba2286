/** The display helpers of a feedback card
    (src/components/molecules/FeedbackCard.jsx). */
module FeedbackCard {
  import opened Common
  import opened Text
  import Lists

  // ---------------------------------------------------------------------
  // truncateText

  /** `text.substring(0, n)`: the first n characters, with n clamped to the
      string as `substring` does. */
  function Prefix(text: string, n: int): (r: string)
    ensures |r| <= |text| && r == text[..|r|]
    ensures 0 <= n <= |text| ==> |r| == n
  {
    if n <= 0 then [] else if n >= |text| then text else text[..n]
  }

  /** `truncateText(text, maxLength = 120)`. */
  function TruncateText(text: string, maxLength: int := 120): string
  {
    if |text| <= maxLength then text else Trim(Prefix(text, maxLength)) + "..."
  }

  /** A text that fits is shown as it is. A longer one is cut to its first
      maxLength characters, stripped of white space at both ends and given
      an ellipsis, so it never exceeds maxLength + 3 characters. */
  lemma TruncateTextSpec(text: string, maxLength: int)
    ensures |text| <= maxLength ==> TruncateText(text, maxLength) == text
    ensures |text| > maxLength ==>
      var r := TruncateText(text, maxLength);
      var kept := r[..|r| - 3];
      var p := Prefix(text, maxLength);
      && |r| >= 3 && r[|r| - 3..] == "..."
      && |r| <= (if maxLength < 0 then 0 else maxLength) + 3
      && (exists lo :: OccursAt(p, kept, lo) && IsBlank(p[..lo]) && IsBlank(p[lo + |kept|..]))
      && (kept == [] || (!IsSpace(kept[0]) && !IsSpace(kept[|kept| - 1])))
  {
    if |text| > maxLength {
      TruncatedKept(Prefix(text, maxLength), TruncateText(text, maxLength));
    }
  }

  /** The parts of a trimmed text with an ellipsis appended. */
  lemma TruncatedKept(p: string, r: string)
    requires r == Trim(p) + "..."
    ensures |r| >= 3 && r[|r| - 3..] == "..." && |r| <= |p| + 3
    ensures var kept := r[..|r| - 3];
      && (exists lo :: OccursAt(p, kept, lo) && IsBlank(p[..lo]) && IsBlank(p[lo + |kept|..]))
      && (kept == [] || (!IsSpace(kept[0]) && !IsSpace(kept[|kept| - 1])))
  {
    var kept := Trim(p);
    assert r[..|r| - 3] == kept && r[|r| - 3..] == "...";
    TrimSlice(p);
    TrimEnds(p);
  }

  /** With the default maximum of 120, the result fits in 123 characters. */
  lemma TruncateTextDefault(text: string)
    ensures |TruncateText(text)| <= 123
    ensures |text| <= 120 ==> TruncateText(text) == text
  {
    TruncateTextSpec(text, 120);
  }

  // ---------------------------------------------------------------------
  // formatStatus

  /** `s.split("-")`: the pieces between the dashes; always at least one. */
  function Split(s: string): (r: seq<string>)
    ensures |r| >= 1
  {
    if s == [] then [[]]
    else
      var rest := Split(s[1..]);
      if s[0] == '-' then [[]] + rest else [[s[0]] + rest[0]] + rest[1..]
  }

  /** `word.charAt(0).toUpperCase() + word.slice(1)`. */
  function Capitalise(word: string): string
  {
    if word == [] then [] else [UpperChar(word[0])] + word[1..]
  }

  function CapitaliseAll(words: seq<string>): (r: seq<string>)
    ensures |r| == |words|
  {
    if words == [] then [] else [Capitalise(words[0])] + CapitaliseAll(words[1..])
  }

  /** `words.join(" ")`. */
  function Join(words: seq<string>): string
    requires |words| >= 1
  {
    if |words| == 1 then words[0] else words[0] + " " + Join(words[1..])
  }

  /** `formatStatus(status)`. */
  function FormatStatus(status: string): string
  {
    Join(CapitaliseAll(Split(status)))
  }

  /** Reference definition, character by character: a dash becomes a
      space, and a character that starts a word (the first one, when
      `first` says so, or one right after a dash) is upper-cased. */
  function Rendered(s: string, first: bool): (r: string)
    ensures |r| == |s|
  {
    seq(|s|, i requires 0 <= i < |s| =>
      if s[i] == '-' then ' '
      else if (i == 0 && first) || (i > 0 && s[i - 1] == '-') then UpperChar(s[i])
      else s[i])
  }

  /** The words joined with spaces, the first one capitalised only when
      `first` says so and every later one capitalised. */
  function Glue(words: seq<string>, first: bool): string
    requires |words| >= 1
  {
    (if first then Capitalise(words[0]) else words[0])
      + (if |words| == 1 then [] else " " + Glue(words[1..], true))
  }

  lemma {:induction false} JoinCapitalisedIsGlue(words: seq<string>)
    requires |words| >= 1
    ensures Join(CapitaliseAll(words)) == Glue(words, true)
  {
    if |words| > 1 {
      JoinCapitalisedIsGlue(words[1..]);
      assert CapitaliseAll(words)[1..] == CapitaliseAll(words[1..]);
    }
  }

  lemma RenderedCons(s: string, first: bool)
    requires s != []
    ensures Rendered(s, first)
         == [if s[0] == '-' then ' ' else if first then UpperChar(s[0]) else s[0]] + Rendered(s[1..], s[0] == '-')
  {
  }

  /** A leading dash ends an empty first word. */
  lemma GlueDash(s: string, first: bool)
    requires s != [] && s[0] == '-'
    ensures Glue(Split(s), first) == " " + Glue(Split(s[1..]), true)
  {
    var rest := Split(s[1..]);
    assert Split(s) == [[]] + rest;
    assert Split(s)[1..] == rest;
  }

  /** A leading letter starts the first word. */
  lemma GlueChar(s: string, first: bool)
    requires s != [] && s[0] != '-'
    ensures Glue(Split(s), first) == [if first then UpperChar(s[0]) else s[0]] + Glue(Split(s[1..]), false)
  {
    var rest := Split(s[1..]);
    var w := [s[0]] + rest[0];
    var tail: string := if |rest| == 1 then [] else " " + Glue(rest[1..], true);
    assert Split(s) == [w] + rest[1..];
    assert ([w] + rest[1..])[1..] == rest[1..];
    assert Glue(rest, false) == rest[0] + tail;
    assert (if first then Capitalise(w) else w) == [if first then UpperChar(s[0]) else s[0]] + rest[0];
    assert Glue(Split(s), first) == (if first then Capitalise(w) else w) + tail;
    var c := if first then UpperChar(s[0]) else s[0];
    Lists.ConcatAssoc([c], rest[0], tail);
  }

  /** Splitting and gluing is rendering character by character. */
  lemma {:induction false} GlueSplitIsRendered(s: string, first: bool)
    ensures Glue(Split(s), first) == Rendered(s, first)
  {
    if s != [] {
      GlueSplitIsRendered(s[1..], s[0] == '-');
      RenderedCons(s, first);
      if s[0] == '-' {
        GlueDash(s, first);
      } else {
        GlueChar(s, first);
      }
    }
  }

  /** `formatStatus` replaces each dash by a space and upper-cases the first
      letter of every word, and nothing else. */
  lemma FormatStatusSpec(status: string)
    ensures FormatStatus(status) == Rendered(status, true)
    ensures |FormatStatus(status)| == |status|
  {
    JoinCapitalisedIsGlue(Split(status));
    GlueSplitIsRendered(status, true);
  }

  /** The example of the board's columns: "in-progress" reads "In Progress". */
  lemma FormatStatusInProgress(s: string)
    requires s == "in-progress"
    ensures FormatStatus(s) == "In Progress"
  {
    FormatStatusSpec(s);
    var r := Rendered(s, true);
    assert |r| == 11;
    assert r[0] == 'I' && r[1] == 'n' && r[2] == ' ';
    assert s[2] == '-' && r[3] == 'P';
    assert r[4] == 'r' && r[5] == 'o' && r[6] == 'g' && r[7] == 'r';
    assert r[8] == 'e' && r[9] == 's' && r[10] == 's';
    assert r == "In Progress";
  }

  // ---------------------------------------------------------------------
  // getStatusColor and hasImages

  /** `getStatusColor(status)`: the badge variant of a status. */
  function StatusColor(status: string): string
  {
    match status
    case "under-review" => "warning"
    case "planned" => "info"
    case "in-progress" => "primary"
    case "completed" => "success"
    case _ => "default"
  }

  /** The four workflow statuses get four different colours, and every
      other status the neutral one. */
  lemma StatusColorSpec(status: string, other: string)
    ensures StatusColor(status) != "default" <==> status in ["under-review", "planned", "in-progress", "completed"]
    ensures StatusColor(status) != "default" && StatusColor(status) == StatusColor(other) ==> status == other
  {
  }

  /** `post.images && post.images.length > 0`; None is a missing field. */
  predicate HasImages(images: Option<seq<string>>)
  {
    images.Some? && |images.value| > 0
  }

  /** The image badge shows exactly when the list is present and has an
      entry; a present but empty list is truthy in JavaScript, yet shows no
      badge. */
  lemma HasImagesSpec(images: Option<seq<string>>)
    ensures HasImages(images) <==> images.Some? && images.value != []
    ensures HasImages(images) ==> images.value[0] in images.value
    ensures !HasImages(Some([]))
  {
  }
}
