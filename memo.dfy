/**
 * The free-text memo panel of an appliance: a one-line preview for the
 * collapsed header, and automatic saving of every edit to local storage.
 */
module Memo {
  import opened Js
  import opened Text
  import opened LocalStore

  const PreviewLength: nat := 22
  const Ellipsis: char := '…'

  /** `s.replace(/\n/g, ' ')`: every line feed becomes a space. */
  function ReplaceNewlines(s: string): (r: string)
    ensures |r| == |s|
    ensures forall i :: 0 <= i < |s| ==> r[i] == (if s[i] == '\n' then ' ' else s[i])
  {
    if s == [] then []
    else [if s[0] == '\n' then ' ' else s[0]] + ReplaceNewlines(s[1..])
  }

  /**
   * The preview text of a memo: the first 22 characters with line feeds
   * turned into spaces, and an ellipsis when the memo is longer.
   */
  function Clip(memo: string): string {
    var flat := ReplaceNewlines(memo);
    flat[..if |flat| < PreviewLength then |flat| else PreviewLength]
      + (if |memo| > PreviewLength then [Ellipsis] else [])
  }

  /** `preview`: none for a memo that trims to nothing, otherwise the clipped text. */
  function Preview(memo: string): Option<string> {
    if Trim(memo) == "" then None else Some(Clip(memo))
  }

  /** There is no preview exactly when the memo is empty or whitespace only. */
  lemma PreviewNoneIffBlank(memo: string)
    ensures Preview(memo).None? <==> AllWhitespace(memo)
    ensures Preview(memo).Some? ==> Preview(memo).value == Clip(memo)
  {
    TrimEmptyIffBlank(memo);
  }

  /**
   * A preview is the memo's first 22 characters, line feeds turned into
   * spaces, followed by an ellipsis exactly when the memo is longer than 22;
   * it has no line feed and at most 23 characters.
   */
  lemma ClipShape(memo: string)
    ensures var p := Clip(memo);
      && |p| <= PreviewLength + 1
      && (|memo| > PreviewLength ==> |p| == PreviewLength + 1 && p[PreviewLength] == Ellipsis)
      && (|memo| <= PreviewLength ==> |p| == |memo|)
      && (forall i :: 0 <= i < |p| ==> p[i] != '\n')
      && (forall i :: 0 <= i < |p| && i < PreviewLength ==>
            p[i] == (if memo[i] == '\n' then ' ' else memo[i]))
  {
  }

  /** A short memo previews as itself with line feeds turned into spaces. */
  lemma ClipShort(memo: string)
    requires |memo| <= PreviewLength
    ensures Clip(memo) == ReplaceNewlines(memo)
  {
    var flat := ReplaceNewlines(memo);
    var empty: string := [];
    assert Clip(memo) == flat[..|flat|] + empty;
    assert flat[..|flat|] + empty == flat;
  }

  /** A non-blank memo of at most 22 characters previews as itself, line feeds as spaces. */
  lemma ShortPreview(memo: string)
    requires !AllWhitespace(memo) && |memo| <= PreviewLength
    ensures Preview(memo) == Some(ReplaceNewlines(memo))
  {
    PreviewNoneIffBlank(memo);
    ClipShort(memo);
  }

  /** The load effect: a non-empty stored memo replaces the text. */
  function Loaded(memo: string, stored: Option<Stored>): string {
    match stored
    case Some(RawText(text)) => if text != "" then text else memo
    case _ => memo
  }

  /**
   * An edit stores the text verbatim, so a freshly mounted panel that loads
   * afterwards shows exactly the edited text (an empty edit leaves the
   * initial empty memo, which is the same).
   */
  lemma EditThenLoad(text: string)
    ensures Loaded("", Some(RawText(text))) == text
  {
  }

  /** The component; its store writes go to `memo_<productId>`. */
  class MemoSection {
    const productId: string
    var isOpen: bool
    var memo: string

    constructor (productId: string)
      ensures this.productId == productId && !isOpen && memo == ""
    {
      this.productId := productId;
      isOpen := false;
      memo := "";
    }

    method Load(store: LocalStorage)
      modifies this`memo
      ensures memo == Loaded(old(memo), store.Get(MemoKey(productId)))
    {
      var stored := store.Get(MemoKey(productId));
      if stored.Some? && stored.value.RawText? && stored.value.text != "" {
        memo := stored.value.text;
      }
    }

    /** `handleChange`: the new text becomes the memo and is stored verbatim. */
    method HandleChange(store: LocalStorage, text: string)
      modifies this`memo, store
      ensures memo == text
      ensures store.entries == old(store.entries)[MemoKey(productId) := RawText(text)]
    {
      memo := text;
      store.Set(MemoKey(productId), RawText(text));
    }

    method Toggle()
      modifies this`isOpen
      ensures isOpen == !old(isOpen)
    {
      isOpen := !isOpen;
    }

    /** The collapsed header's text: the preview, or none (a placeholder). */
    function HeaderPreview(): Option<string>
      reads this
    {
      if isOpen then None else Preview(memo)
    }
  }
}
