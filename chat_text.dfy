/** The pure parts of the chat service (services/chat.rs): the context window
    handed to the model (`build_context`) and the title of a new conversation.
    A Rust `String` is UTF-8: `len()` counts bytes and `&s[..n]` panics when
    byte `n` falls inside a character, so titles are measured in bytes here. */
module ChatText {
  import opened Wrappers
  import Text

  datatype ChatMessage = ChatMessage(role: string, content: string, timestamp: int)

  // ---------------------------------------------------------------------
  // build_context

  function Reverse<T>(s: seq<T>): (r: seq<T>)
    ensures |r| == |s|
    ensures forall i :: 0 <= i < |s| ==> r[i] == s[|s| - 1 - i]
  {
    seq(|s|, i requires 0 <= i < |s| => s[|s| - 1 - i])
  }

  /** Iterator `skip(n)`. */
  function Skip<T>(s: seq<T>, n: nat): (r: seq<T>)
    ensures |r| == if n <= |s| then |s| - n else 0
  {
    if n <= |s| then s[n..] else []
  }

  /** Iterator `take(n)`. */
  function Take<T>(s: seq<T>, n: nat): (r: seq<T>)
    ensures |r| == if n <= |s| then n else |s|
  {
    if n <= |s| then s[..n] else s
  }

  /** `format!("{}: {}", m.role, m.content)`. */
  function Render(m: ChatMessage): string {
    m.role + ": " + m.content
  }

  function RenderAll(ms: seq<ChatMessage>): (r: seq<string>)
    ensures |r| == |ms| && forall i :: 0 <= i < |ms| ==> r[i] == Render(ms[i])
  {
    seq(|ms|, i requires 0 <= i < |ms| => Render(ms[i]))
  }

  /** The iterator chain `rev().skip(1).take(limit).rev()`. */
  function ContextMessages(messages: seq<ChatMessage>, limit: nat): seq<ChatMessage> {
    Reverse(Take(Skip(Reverse(messages), 1), limit))
  }

  /** `build_context`: no context for an empty history; otherwise the
      rendered window joined by newlines, or none when the window is empty. */
  function BuildContext(messages: seq<ChatMessage>, limit: nat): Option<string> {
    if |messages| == 0 then None
    else
      var window := ContextMessages(messages, limit);
      if |window| == 0 then None else Some(Text.Join(RenderAll(window), "\n"))
  }

  /** How many messages the window keeps: at most `limit`, and never the last. */
  function WindowSize(n: nat, limit: nat): nat {
    if n == 0 then 0 else if limit <= n - 1 then limit else n - 1
  }

  lemma ReverseReverse<T>(s: seq<T>)
    ensures Reverse(Reverse(s)) == s
  {
    assert forall i :: 0 <= i < |s| ==> Reverse(Reverse(s))[i] == s[i];
  }

  /** Dropping the first of the reversed sequence drops the last. */
  lemma SkipOneOfReverse<T>(s: seq<T>)
    requires |s| > 0
    ensures Skip(Reverse(s), 1) == Reverse(s[..|s| - 1])
  {
    var r, e := Reverse(s), s[..|s| - 1];
    assert Skip(r, 1) == r[1..];
    forall i | 0 <= i < |s| - 1 ensures r[1..][i] == Reverse(e)[i] {
      assert r[1..][i] == r[i + 1] == s[|s| - 2 - i];
      assert Reverse(e)[i] == e[|e| - 1 - i];
    }
  }

  /** The first `k` of the reversed sequence are its last `k`, reversed. */
  lemma TakeOfReverse<T>(s: seq<T>, k: nat)
    requires k <= |s|
    ensures Take(Reverse(s), k) == Reverse(s[|s| - k..])
  {
    assert forall i :: 0 <= i < k ==> Take(Reverse(s), k)[i] == Reverse(s[|s| - k..])[i];
  }

  /** Taking `limit` of the reversed earlier messages and reversing back
      keeps the last `limit` of them. */
  lemma LastOfEarlier(earlier: seq<ChatMessage>, limit: nat)
    ensures var k := if limit <= |earlier| then limit else |earlier|;
      Reverse(Take(Reverse(earlier), limit)) == earlier[|earlier| - k..]
  {
    var k := if limit <= |earlier| then limit else |earlier|;
    if limit > |earlier| {
      assert Take(Reverse(earlier), limit) == Reverse(earlier) == Reverse(earlier)[..k];
    }
    assert Take(Reverse(earlier), limit) == Take(Reverse(earlier), k);
    TakeOfReverse(earlier, k);
    ReverseReverse(earlier[|earlier| - k..]);
  }

  /** The window is the `limit` most recent messages before the last one, in
      their original order. */
  lemma ContextWindow(messages: seq<ChatMessage>, limit: nat)
    ensures var n := |messages|; var k := WindowSize(n, limit);
      ContextMessages(messages, limit) == (if n == 0 then [] else messages[n - 1 - k .. n - 1])
  {
    var n := |messages|;
    if n > 0 {
      var earlier := messages[..n - 1];
      SkipOneOfReverse(messages);
      LastOfEarlier(earlier, limit);
      assert earlier[n - 1 - WindowSize(n, limit)..] == messages[n - 1 - WindowSize(n, limit) .. n - 1];
    }
  }

  /** There is a context exactly when there is an earlier message and the
      limit is positive; it then renders the window, oldest first. */
  lemma BuildContextMeaning(messages: seq<ChatMessage>, limit: nat)
    ensures BuildContext(messages, limit).Some? <==> |messages| >= 2 && limit > 0
    ensures |messages| <= 1 ==> BuildContext(messages, limit).None?
    ensures BuildContext(messages, limit).Some? ==>
      var n := |messages|; var k := WindowSize(n, limit);
      BuildContext(messages, limit).value == Text.Join(RenderAll(messages[n - 1 - k .. n - 1]), "\n")
  {
    ContextWindow(messages, limit);
  }

  /** The last message never reaches the context, whatever it says. */
  lemma LastMessageNotInContext(messages: seq<ChatMessage>, last: ChatMessage, last': ChatMessage, limit: nat)
    ensures BuildContext(messages + [last], limit) == BuildContext(messages + [last'], limit)
  {
    ContextWindow(messages + [last], limit);
    ContextWindow(messages + [last'], limit);
    var n := |messages| + 1;
    var k := WindowSize(n, limit);
    assert (messages + [last])[n - 1 - k .. n - 1] == messages[n - 1 - k ..];
    assert (messages + [last'])[n - 1 - k .. n - 1] == messages[n - 1 - k ..];
  }

  // ---------------------------------------------------------------------
  // Titles, in UTF-8 bytes

  /** The number of bytes UTF-8 uses for a character. */
  function Utf8Width(c: char): (w: nat)
    ensures 1 <= w <= 4
  {
    var n := c as int;
    if n < 0x80 then 1 else if n < 0x800 then 2 else if n < 0x10000 then 3 else 4
  }

  /** Rust `str::len`: the length in bytes. */
  function ByteLen(s: string): nat {
    if s == [] then 0 else Utf8Width(s[0]) + ByteLen(s[1..])
  }

  lemma {:induction false} ByteLenAppend(a: string, b: string)
    ensures ByteLen(a + b) == ByteLen(a) + ByteLen(b)
  {
    if a == [] {
      assert a + b == b;
    } else {
      assert (a + b)[0] == a[0] && (a + b)[1..] == a[1..] + b;
      ByteLenAppend(a[1..], b);
    }
  }

  lemma {:induction false} ByteLenAscii(s: string)
    requires forall i :: 0 <= i < |s| ==> s[i] as int < 0x80
    ensures ByteLen(s) == |s|
  {
    if s != [] {
      ByteLenAscii(s[1..]);
    }
  }

  /** Byte offset `b` is a character boundary of `s`. */
  predicate IsCharBoundary(s: string, b: nat) {
    exists i :: 0 <= i <= |s| && ByteLen(s[..i]) == b
  }

  /** The longest prefix of `s` that fits in `budget` bytes. */
  function PrefixWithin(s: string, budget: nat): (r: string)
    ensures |r| <= |s| && r == s[..|r|]
    ensures ByteLen(r) <= budget
    ensures |r| < |s| ==> ByteLen(r) + Utf8Width(s[|r|]) > budget
  {
    if s == [] || Utf8Width(s[0]) > budget then []
    else
      var rest := PrefixWithin(s[1..], budget - Utf8Width(s[0]));
      assert [s[0]] + rest == s[..1 + |rest|];
      assert ([s[0]] + rest)[1..] == rest;
      [s[0]] + rest
  }

  /** Prefix byte lengths grow with the prefix. */
  lemma {:induction false} ByteLenPrefixMonotone(s: string, i: nat, j: nat)
    requires i <= j <= |s|
    ensures ByteLen(s[..i]) + (j - i) <= ByteLen(s[..j])
  {
    if i < j {
      ByteLenPrefixMonotone(s, i, j - 1);
      assert s[..j] == s[..j - 1] + [s[j - 1]];
      ByteLenAppend(s[..j - 1], [s[j - 1]]);
      assert ByteLen([s[j - 1]]) == Utf8Width(s[j - 1]);
    }
  }

  /** `b` is a boundary exactly when the longest prefix within `b` bytes has
      exactly `b` bytes: the slice `&s[..b]` is then that prefix. */
  lemma BoundaryMeansExactPrefix(s: string, b: nat)
    ensures IsCharBoundary(s, b) <==> ByteLen(PrefixWithin(s, b)) == b
  {
    var r := PrefixWithin(s, b);
    var m := |r|;
    assert s[..m] == r;
    if IsCharBoundary(s, b) {
      var i :| 0 <= i <= |s| && ByteLen(s[..i]) == b;
      if i > m {
        ByteLenPrefixMonotone(s, m + 1, i);
        assert s[..m + 1] == r + [s[m]];
        ByteLenAppend(r, [s[m]]);
      } else if i < m {
        ByteLenPrefixMonotone(s, i, m);
      }
    }
  }

  /** The title expression as written: the message itself up to 50 bytes,
      otherwise `&message[..47]` followed by "..."; `None` is the panic when
      byte 47 falls inside a character. */
  function TitleAsWritten(message: string): Option<string> {
    if ByteLen(message) <= 50 then Some(message)
    else if IsCharBoundary(message, 47) then Some(PrefixWithin(message, 47) + "...")
    else None
  }

  /** A message of 46 ASCII characters followed by several two-byte
      characters has byte 47 inside a character: the title panics. */
  lemma TitleAsWrittenPanics(a: string, b: string)
    requires |a| == 46 && forall i :: 0 <= i < |a| ==> a[i] as int < 0x80
    requires ByteLen(b) >= 4
    ensures TitleAsWritten(a + "é" + b).None?
  {
    var m := a + "é" + b;
    AccentedMessageBytes(a, b);
    AccentedMessagePrefix(a, b);
    BoundaryMeansExactPrefix(m, 47);
  }

  lemma AccentedMessageBytes(a: string, b: string)
    requires |a| == 46 && forall i :: 0 <= i < |a| ==> a[i] as int < 0x80
    ensures ByteLen(a) == 46
    ensures ByteLen(a + "é" + b) == 48 + ByteLen(b)
  {
    ByteLenAscii(a);
    assert Utf8Width('é') == 2;
    assert ByteLen("é") == 2;
    ByteLenAppend(a, "é");
    ByteLenAppend(a + "é", b);
  }

  lemma AccentedMessagePrefix(a: string, b: string)
    requires |a| == 46 && forall i :: 0 <= i < |a| ==> a[i] as int < 0x80
    ensures PrefixWithin(a + "é" + b, 47) == a
  {
    ByteLenAscii(a);
    assert ("é" + b)[0] == 'é' && Utf8Width('é') == 2;
    PrefixWithinExtends(a, "é" + b, 47);
    assert a + "é" + b == a + ("é" + b);
  }

  /** The same message with a concrete accented tail. */
  lemma TitleAsWrittenPanicsExample()
    ensures TitleAsWritten(seq(46, _ => 'a') + "ééé").None?
  {
    var b := "éé";
    assert ByteLen(b) == 4;
    assert "é" + b == "ééé";
    TitleAsWrittenPanics(seq(46, _ => 'a'), b);
    assert seq(46, _ => 'a') + "é" + b == seq(46, _ => 'a') + "ééé";
  }

  /** A prefix that fits the budget and is followed by a character that does
      not is the longest prefix within the budget. */
  lemma {:induction false} PrefixWithinExtends(a: string, rest: string, budget: nat)
    requires ByteLen(a) <= budget
    requires rest != [] && ByteLen(a) + Utf8Width(rest[0]) > budget
    ensures PrefixWithin(a + rest, budget) == a
  {
    if a != [] {
      assert (a + rest)[0] == a[0] && (a + rest)[1..] == a[1..] + rest;
      PrefixWithinExtends(a[1..], rest, budget - Utf8Width(a[0]));
    } else {
      assert (a + rest) == rest;
    }
  }

  /** The title cut at a character boundary: the message itself up to 50
      bytes, otherwise the longest prefix within 47 bytes followed by "...". */
  function Title(message: string): (t: string)
    ensures ByteLen(t) <= 50
    ensures ByteLen(message) <= 50 ==> t == message
    ensures ByteLen(message) > 50 ==> t == PrefixWithin(message, 47) + "..."
  {
    if ByteLen(message) <= 50 then message
    else
      var p := PrefixWithin(message, 47);
      ByteLenAppend(p, "...");
      assert ByteLen("...") == 3;
      p + "..."
  }

  /** Wherever the expression as written does not panic, the corrected title
      is the same; in particular for every ASCII message. */
  lemma TitleAgreesWhenDefined(message: string)
    ensures TitleAsWritten(message).Some? ==> TitleAsWritten(message) == Some(Title(message))
    ensures (forall i :: 0 <= i < |message| ==> message[i] as int < 0x80) ==> TitleAsWritten(message).Some?
  {
    if (forall i :: 0 <= i < |message| ==> message[i] as int < 0x80) && ByteLen(message) > 50 {
      ByteLenAscii(message);
      ByteLenAscii(message[..47]);
      assert IsCharBoundary(message, 47) by {
        assert 0 <= 47 <= |message| && ByteLen(message[..47]) == 47;
      }
    }
  }
}
