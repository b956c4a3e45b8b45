/**
 * The submit gate of components/ChatInput.tsx: the text field's state,
 * the check that keeps blank text and a busy page away from the send
 * handler, and the `String.prototype.trim` it relies on.
 */
module ChatInputComponent {
  import opened Wrappers

  /**
   * The characters `trim` removes: ECMAScript's WhiteSpace (tab, vertical
   * tab, form feed, space, no-break space, the byte order mark and the
   * other space separators) and LineTerminator (line feed, carriage
   * return, line and paragraph separators).
   */
  predicate IsWhitespace(c: char)
    ensures c == ' ' || c == '\t' || c == '\n' || c == '\r' ==> IsWhitespace(c)
    ensures '!' <= c <= '~' ==> !IsWhitespace(c)
  {
    || c == '\t' || c == '\n' || c == '\U{000B}' || c == '\U{000C}' || c == '\r' || c == ' '
    || c == '\U{00A0}' || c == '\U{1680}' || ('\U{2000}' <= c <= '\U{200A}')
    || c == '\U{2028}' || c == '\U{2029}' || c == '\U{202F}' || c == '\U{205F}'
    || c == '\U{3000}' || c == '\U{FEFF}'
  }

  predicate AllWhitespace(s: string) {
    forall i :: 0 <= i < |s| ==> IsWhitespace(s[i])
  }

  /** Drop the leading whitespace: the longest suffix that does not start with whitespace. */
  function TrimStart(s: string): (r: string)
    ensures |r| <= |s| && r == s[|s| - |r|..]
    ensures forall i :: 0 <= i < |s| - |r| ==> IsWhitespace(s[i])
    ensures r != [] ==> !IsWhitespace(r[0])
  {
    if s != [] && IsWhitespace(s[0]) then TrimStart(s[1..]) else s
  }

  /** Drop the trailing whitespace: the longest prefix that does not end with whitespace. */
  function TrimEnd(s: string): (r: string)
    ensures |r| <= |s| && r == s[..|r|]
    ensures forall i :: |r| <= i < |s| ==> IsWhitespace(s[i])
    ensures r != [] ==> !IsWhitespace(r[|r| - 1])
  {
    if s != [] && IsWhitespace(s[|s| - 1]) then TrimEnd(s[..|s| - 1]) else s
  }

  /** `s.trim()`: empty exactly for blank text, otherwise without whitespace at either end. */
  function Trim(s: string): (r: string)
    ensures |r| <= |s|
    ensures r == [] <==> AllWhitespace(s)
    ensures r != [] ==> !IsWhitespace(r[0]) && !IsWhitespace(r[|r| - 1])
  {
    TrimEnd(TrimStart(s))
  }

  /**
   * The trimmed text is the slice of the input that starts at `k`, and
   * everything cut off on either side of it is whitespace.
   */
  lemma TrimIsSurroundedByWhitespace(s: string) returns (k: nat)
    ensures k + |Trim(s)| <= |s| && Trim(s) == s[k..k + |Trim(s)|]
    ensures forall i :: 0 <= i < k ==> IsWhitespace(s[i])
    ensures forall i :: k + |Trim(s)| <= i < |s| ==> IsWhitespace(s[i])
  {
    var t := TrimStart(s);
    var r := Trim(s);
    k := |s| - |t|;
    assert t == s[k..];
    assert r == t[..|r|];
    forall i | k + |r| <= i < |s| ensures IsWhitespace(s[i]) {
      assert s[i] == t[i - k];
    }
  }

  /** Text already trimmed is left as it is. */
  lemma TrimOfTrimmed(s: string)
    requires s != [] ==> !IsWhitespace(s[0]) && !IsWhitespace(s[|s| - 1])
    ensures Trim(s) == s
  {
  }

  /** Trimming twice is trimming once. */
  lemma TrimIsIdempotent(s: string)
    ensures Trim(Trim(s)) == Trim(s)
  {
    TrimOfTrimmed(Trim(s));
  }

  /** What `handleSubmit` passes to `onSend`, if it calls it at all. */
  function SubmitGate(text: string, disabled: bool): (sent: Option<string>)
    ensures sent.Some? <==> !disabled && !AllWhitespace(text)
    ensures sent.Some? ==> sent.value == Trim(text) && sent.value != []
  {
    var trimmed := Trim(text);
    if trimmed != [] && !disabled then Some(trimmed) else None
  }

  /** Enter without Shift submits; every other key press is left to the text field. */
  predicate IsSubmitKey(key: string, shiftKey: bool) {
    key == "Enter" && !shiftKey
  }

  /** The text field with its own `text` state; `disabled` is the page's busy flag. */
  class ChatInput {
    var text: string

    constructor ()
      ensures text == ""
    {
      text := "";
    }

    /** Typing: the field holds what was typed. */
    method HandleInput(value: string)
      modifies this
      ensures text == value
    {
      text := value;
    }

    /**
     * Forward the trimmed text and clear the field, or, for blank text or
     * a disabled field, send nothing and leave the field as it was.
     */
    method HandleSubmit(disabled: bool) returns (sent: Option<string>)
      modifies this
      ensures sent == SubmitGate(old(text), disabled)
      ensures sent.Some? ==> text == ""
      ensures sent.None? ==> text == old(text)
    {
      if Trim(text) != [] && !disabled {
        sent := Some(Trim(text));
        text := "";
      } else {
        sent := None;
      }
    }

    method HandleKeyDown(key: string, shiftKey: bool, disabled: bool) returns (sent: Option<string>)
      modifies this
      ensures IsSubmitKey(key, shiftKey) ==> sent == SubmitGate(old(text), disabled)
      ensures !IsSubmitKey(key, shiftKey) ==> sent.None?
      ensures sent.Some? ==> text == ""
      ensures sent.None? ==> text == old(text)
    {
      if IsSubmitKey(key, shiftKey) {
        sent := HandleSubmit(disabled);
      } else {
        sent := None;
      }
    }
  }
}
