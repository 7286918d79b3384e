/**
 * The contact buttons: an e-mail link keeps its default browser action;
 * every other button is intercepted and shows a message chosen by its
 * label with surrounding white space removed.
 */
module Contact {
  import opened Wrappers

  datatype MessageKind = Instagram | Facebook | WhatsApp | Generic

  /** What a click on a contact button does. */
  datatype ClickOutcome = Passthrough | Message(kind: MessageKind)

  /** White space and line terminators as JavaScript's `String.prototype.trim` removes them. */
  predicate IsWhitespace(c: char) {
    c == ' ' || c == '\t' || c == '\n' || c == '\r' || c == '\U{000B}' || c == '\U{000C}'
    || c == '\U{00A0}' || c == '\U{1680}' || ('\U{2000}' <= c <= '\U{200A}')
    || c == '\U{2028}' || c == '\U{2029}' || c == '\U{202F}' || c == '\U{205F}'
    || c == '\U{3000}' || c == '\U{FEFF}'
  }

  predicate AllWhitespace(s: string) {
    forall i :: 0 <= i < |s| ==> IsWhitespace(s[i])
  }

  /** Neither starts nor ends with white space. */
  predicate Trimmed(s: string) {
    s == [] || (!IsWhitespace(s[0]) && !IsWhitespace(s[|s| - 1]))
  }

  /** Drops the leading white space; what remains is a suffix of `s`. */
  function TrimStart(s: string): (r: string)
    ensures |r| <= |s| && r == s[|s| - |r|..]
    ensures r == [] || !IsWhitespace(r[0])
    decreases |s|
  {
    if s != [] && IsWhitespace(s[0]) then TrimStart(s[1..]) else s
  }

  /** Drops the trailing white space; what remains is a prefix of `s`. */
  function TrimEnd(s: string): (r: string)
    ensures |r| <= |s| && r == s[..|r|]
    ensures r == [] || !IsWhitespace(r[|r| - 1])
    decreases |s|
  {
    if s != [] && IsWhitespace(s[|s| - 1]) then TrimEnd(s[..|s| - 1]) else s
  }

  /** `text.trim()`: leading, then trailing white space removed. */
  function Trim(s: string): (r: string)
    ensures Trimmed(r)
    ensures |r| <= |s|
  {
    TrimEnd(TrimStart(s))
  }

  /** Everything `TrimStart` drops is white space. */
  lemma {:induction false} TrimStartDropsWhitespace(s: string)
    ensures forall i :: 0 <= i < |s| - |TrimStart(s)| ==> IsWhitespace(s[i])
    decreases |s|
  {
    if s != [] && IsWhitespace(s[0]) {
      TrimStartDropsWhitespace(s[1..]);
      assert forall i :: 1 <= i < |s| - |TrimStart(s)| ==> s[i] == s[1..][i - 1];
    }
  }

  /** Everything `TrimEnd` drops is white space. */
  lemma {:induction false} TrimEndDropsWhitespace(s: string)
    ensures forall i :: |TrimEnd(s)| <= i < |s| ==> IsWhitespace(s[i])
    decreases |s|
  {
    if s != [] && IsWhitespace(s[|s| - 1]) {
      TrimEndDropsWhitespace(s[..|s| - 1]);
      assert forall i :: |TrimEnd(s)| <= i < |s| - 1 ==> s[i] == s[..|s| - 1][i];
    }
  }

  /** Padding a trimmed text with white space on both sides is undone by `Trim`. */
  lemma TrimPadded(pre: string, t: string, post: string)
    requires AllWhitespace(pre) && AllWhitespace(post) && Trimmed(t)
    ensures Trim(pre + t + post) == t
  {
    assert pre + t + post == pre + (t + post);
    TrimStartPadded(pre, t + post);
    if t == [] {
      assert t + post == post + [];
      TrimStartPadded(post, []);
    } else {
      assert (t + post)[0] == t[0];
      TrimEndPadded(t, post);
    }
  }

  lemma {:induction false} TrimStartPadded(pre: string, rest: string)
    requires AllWhitespace(pre)
    ensures TrimStart(pre + rest) == TrimStart(rest)
    decreases |pre|
  {
    if pre != [] {
      assert (pre + rest)[1..] == pre[1..] + rest;
      TrimStartPadded(pre[1..], rest);
    } else {
      assert pre + rest == rest;
    }
  }

  lemma {:induction false} TrimEndPadded(t: string, post: string)
    requires Trimmed(t) && AllWhitespace(post)
    ensures TrimEnd(t + post) == t
    decreases |post|
  {
    if post != [] {
      var s := t + post;
      assert s[..|s| - 1] == t + post[..|post| - 1];
      TrimEndPadded(t, post[..|post| - 1]);
    } else {
      assert t + post == t;
    }
  }

  /** `href.startsWith(prefix)`. */
  predicate StartsWith(s: string, prefix: string) {
    |prefix| <= |s| && s[..|prefix|] == prefix
  }

  /** An anchor whose `href` is an e-mail address; `None` is an element without an `href`. */
  predicate IsMailto(href: Option<string>) {
    href.Some? && StartsWith(href.value, "mailto:")
  }

  /** The label a button must carry, once trimmed, to show `kind`'s own message. */
  function LabelOf(kind: MessageKind): string
    requires kind != Generic
  {
    match kind
    case Instagram => "Instagram"
    case Facebook => "Facebook"
    case WhatsApp => "WhatsApp"
  }

  /** The `switch` on the trimmed label: each known name selects its own message, anything else the fallback. */
  function MessageFor(text: string): (kind: MessageKind)
    ensures kind != Generic ==> text == LabelOf(kind)
  {
    if text == "Instagram" then Instagram
    else if text == "Facebook" then Facebook
    else if text == "WhatsApp" then WhatsApp
    else Generic
  }

  /** Each known name selects its own message, so no two names share one. */
  lemma MessageForLabel(kind: MessageKind)
    requires kind != Generic
    ensures MessageFor(LabelOf(kind)) == kind
  {
  }

  /** The click handler of a contact button. */
  function Dispatch(href: Option<string>, caption: string): (r: ClickOutcome)
    ensures r.Passthrough? <==> IsMailto(href)
  {
    if IsMailto(href) then Passthrough else Message(MessageFor(Trim(caption)))
  }

  /** An intercepted button shows `kind`'s own message exactly when its trimmed label is that kind's label. */
  lemma DispatchNamed(href: Option<string>, caption: string, kind: MessageKind)
    requires !IsMailto(href) && kind != Generic
    ensures Dispatch(href, caption) == Message(kind) <==> Trim(caption) == LabelOf(kind)
  {
    var text := Trim(caption);
    if text == LabelOf(kind) {
      MessageForLabel(kind);
    }
  }

  /** Any other label falls back to the generic message. */
  lemma DispatchGeneric(href: Option<string>, caption: string)
    requires !IsMailto(href)
    ensures Dispatch(href, caption) == Message(Generic)
            <==> Trim(caption) !in {LabelOf(Instagram), LabelOf(Facebook), LabelOf(WhatsApp)}
  {
    MessageForLabel(Instagram);
    MessageForLabel(Facebook);
    MessageForLabel(WhatsApp);
  }

  /** A label with white space or line breaks around a known name still selects that name's message. */
  lemma DispatchPaddedLabel(href: Option<string>, pre: string, kind: MessageKind, post: string)
    requires !IsMailto(href) && kind != Generic
    requires AllWhitespace(pre) && AllWhitespace(post)
    ensures Dispatch(href, pre + LabelOf(kind) + post) == Message(kind)
  {
    var name := LabelOf(kind);
    assert !IsWhitespace(name[0]) && !IsWhitespace(name[|name| - 1]);
    TrimPadded(pre, name, post);
    MessageForLabel(kind);
  }

  /** An e-mail link is never intercepted, whatever its label. */
  lemma MailtoIgnoresLabel(address: string, caption: string)
    ensures Dispatch(Some("mailto:" + address), caption) == Passthrough
  {
    assert ("mailto:" + address)[..7] == "mailto:";
  }
}
