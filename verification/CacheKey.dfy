/** The bytes a cache key hashes, and when they identify the request. */
module CacheKey {

  datatype Role = System | User | Assistant | Tool

  datatype Message = Message(role: Role, content: string, toolCallID: string := "")

  /** The part of a request the key is made of. */
  datatype Prompt = Prompt(model: string, system: string, messages: seq<Message>)

  const NUL := '\0'

  function RoleName(r: Role): (s: string)
    ensures NUL !in s
  {
    match r case System => "system" case User => "user" case Assistant => "assistant" case Tool => "tool"
  }

  function MessageBytes(messages: seq<Message>): string {
    if messages == [] then ""
    else
      var last := messages[|messages| - 1];
      MessageBytes(messages[..|messages| - 1]) + RoleName(last.role) + last.content + [NUL]
  }

  /** What is fed to the hash. */
  function KeyBytes(p: Prompt): string {
    p.model + [NUL] + p.system + [NUL] + MessageBytes(p.messages)
  }

  lemma Associate(a: string, b: string, r: string, c: string, n: string)
    ensures a + b + r + c + n == a + (b + r + c + n)
  {
  }

  method HashedBytes(p: Prompt) returns (written: string)
    ensures written == KeyBytes(p)
  {
    written := p.model;
    written := written + [NUL];
    written := written + p.system;
    written := written + [NUL];
    ghost var head := written;
    assert head + "" == head;
    for i := 0 to |p.messages|
      invariant written == head + MessageBytes(p.messages[..i])
    {
      assert p.messages[..i + 1][..i] == p.messages[..i];
      Associate(head, MessageBytes(p.messages[..i]), RoleName(p.messages[i].role), p.messages[i].content, [NUL]);
      written := written + RoleName(p.messages[i].role);
      written := written + p.messages[i].content;
      written := written + [NUL];
    }
    assert p.messages[..|p.messages|] == p.messages;
  }

  ghost predicate NulFree(p: Prompt) {
    NUL !in p.model && NUL !in p.system && forall m | m in p.messages :: NUL !in m.content
  }

  function Nuls(s: string): nat {
    if s == "" then 0 else Nuls(s[..|s| - 1]) + if s[|s| - 1] == NUL then 1 else 0
  }

  lemma {:induction false} NulsConcat(a: string, b: string)
    ensures Nuls(a + b) == Nuls(a) + Nuls(b)
  {
    if b == "" {
      assert a + b == a;
    } else {
      NulsConcat(a, b[..|b| - 1]);
      assert (a + b)[..|a + b| - 1] == a + b[..|b| - 1];
    }
  }

  lemma {:induction false} NoNuls(s: string)
    ensures Nuls(s) == 0 <==> NUL !in s
  {
    if s != "" {
      NoNuls(s[..|s| - 1]);
      assert s == s[..|s| - 1] + [s[|s| - 1]];
    }
  }

  /** The last field of a NUL-terminated list of fields is where the last but one NUL says. */
  lemma SplitLast(a: string, x: string, b: string, y: string)
    requires a + [NUL] + x == b + [NUL] + y && NUL !in x && NUL !in y
    ensures a == b && x == y
  {
    var s := a + [NUL] + x;
    assert s[|a|] == NUL && s[|b|] == NUL;
    assert forall i | |a| < i < |s| :: s[i] == x[i - |a| - 1];
    assert forall i | |b| < i < |s| :: s[i] == y[i - |b| - 1];
    assert |a| == |b|;
    assert a == s[..|a|] && b == s[..|b|];
    assert x == s[|a| + 1..] && y == s[|b| + 1..];
  }

  lemma SameRole(r: Role, c: string, q: Role, d: string)
    requires RoleName(r) + c == RoleName(q) + d
    ensures r == q && c == d
  {
    assert (RoleName(r) + c)[0] == RoleName(r)[0] && (RoleName(q) + d)[0] == RoleName(q)[0];
    assert r == q;
    assert c == (RoleName(r) + c)[|RoleName(r)|..];
  }

  /** The role and content of a message, which are all the key sees of it. */
  function Shown(messages: seq<Message>): (shown: seq<Message>)
    ensures |shown| == |messages|
    ensures forall i | 0 <= i < |messages| :: shown[i] == Message(messages[i].role, messages[i].content)
  {
    seq(|messages|, i requires 0 <= i < |messages| => Message(messages[i].role, messages[i].content))
  }

  function Text(m: Message): string { RoleName(m.role) + m.content }

  /** What precedes the messages, without its last NUL, and then each message without its own. */
  function Stem(head: string, messages: seq<Message>): string {
    if messages == [] then head
    else
      var last := messages[|messages| - 1];
      Stem(head, messages[..|messages| - 1]) + [NUL] + Text(last)
  }

  lemma Regroup(a: string, b: string, front: string, r: string, c: string, n: string)
    requires a + n == b + front
    ensures (a + n + (r + c)) + n == b + (front + r + c + n)
  {
    assert b + (front + r + c + n) == (b + front) + (r + c) + n;
  }

  lemma {:induction false} StemBytes(head: string, messages: seq<Message>)
    ensures Stem(head, messages) + [NUL] == head + [NUL] + MessageBytes(messages)
  {
    if messages != [] {
      var n, last := |messages| - 1, messages[|messages| - 1];
      StemBytes(head, messages[..n]);
      Regroup(Stem(head, messages[..n]), head + [NUL], MessageBytes(messages[..n]),
              RoleName(last.role), last.content, [NUL]);
    }
  }

  lemma {:induction false} StemNuls(head: string, messages: seq<Message>)
    requires forall m | m in messages :: NUL !in m.content
    ensures Nuls(Stem(head, messages)) == Nuls(head) + |messages|
  {
    if messages != [] {
      var n, last := |messages| - 1, messages[|messages| - 1];
      StemNuls(head, messages[..n]);
      var a, t := Stem(head, messages[..n]), Text(last);
      NulsConcat(a + [NUL], t);
      NulsConcat(a, [NUL]);
      assert [NUL][..0] == [];
      assert NUL !in t;
      NoNuls(t);
    }
  }

  lemma SameText(m: Message, q: Message)
    requires Text(m) == Text(q)
    ensures m.role == q.role && m.content == q.content
  {
    SameRole(m.role, m.content, q.role, q.content);
  }

  lemma ShownLast(ms: seq<Message>, ns: seq<Message>)
    requires |ms| == |ns| > 0 && Shown(ms[..|ms| - 1]) == Shown(ns[..|ms| - 1])
    requires ms[|ms| - 1].role == ns[|ms| - 1].role && ms[|ms| - 1].content == ns[|ms| - 1].content
    ensures Shown(ms) == Shown(ns)
  {
    var n := |ms| - 1;
    forall i | 0 <= i < n ensures Shown(ms)[i] == Shown(ns)[i] {
      assert Shown(ms[..n])[i] == Shown(ns[..n])[i];
    }
  }

  lemma PeelMessage(a: string, ms: seq<Message>, b: string, ns: seq<Message>)
    requires |ms| == |ns| > 0 && Stem(a, ms) == Stem(b, ns)
    requires NUL !in ms[|ms| - 1].content && NUL !in ns[|ms| - 1].content
    ensures Stem(a, ms[..|ms| - 1]) == Stem(b, ns[..|ms| - 1])
    ensures ms[|ms| - 1].role == ns[|ms| - 1].role && ms[|ms| - 1].content == ns[|ms| - 1].content
  {
    var n := |ms| - 1;
    SplitLast(Stem(a, ms[..n]), Text(ms[n]), Stem(b, ns[..n]), Text(ns[n]));
    SameText(ms[n], ns[n]);
  }

  /** Stems over the same number of messages can be taken apart. */
  lemma {:induction false} StemInjective(a: string, ms: seq<Message>, b: string, ns: seq<Message>)
    requires |ms| == |ns| && Stem(a, ms) == Stem(b, ns)
    requires forall m | m in ms :: NUL !in m.content
    requires forall m | m in ns :: NUL !in m.content
    ensures a == b && Shown(ms) == Shown(ns)
  {
    if ms != [] {
      PeelMessage(a, ms, b, ns);
      StemInjective(a, ms[..|ms| - 1], b, ns[..|ms| - 1]);
      ShownLast(ms, ns);
    }
  }

  /** What the key sees of a prompt. */
  function Seen(p: Prompt): Prompt { Prompt(p.model, p.system, Shown(p.messages)) }

  lemma KeyStem(p: Prompt)
    ensures KeyBytes(p) == Stem(p.model + [NUL] + p.system, p.messages) + [NUL]
  {
    StemBytes(p.model + [NUL] + p.system, p.messages);
  }

  lemma {:induction false} SeenKeepsBytes(messages: seq<Message>)
    ensures MessageBytes(Shown(messages)) == MessageBytes(messages)
  {
    if messages != [] {
      var n := |messages| - 1;
      SeenKeepsBytes(messages[..n]);
      assert Shown(messages)[..n] == Shown(messages[..n]);
    }
  }

  /** Unique decodability: prompts without NULs have the same bytes exactly when they have the same
      model, system text, roles and contents. */
  lemma KeyIdentifies(p: Prompt, q: Prompt)
    requires NulFree(p) && NulFree(q)
    ensures KeyBytes(p) == KeyBytes(q) <==> Seen(p) == Seen(q)
  {
    if KeyBytes(p) == KeyBytes(q) {
      KeyStem(p);
      KeyStem(q);
      var a, b := p.model + [NUL] + p.system, q.model + [NUL] + q.system;
      var s, t := Stem(a, p.messages), Stem(b, q.messages);
      assert s == (s + [NUL])[..|s|] && t == (t + [NUL])[..|t|];
      HeadNuls(p);
      HeadNuls(q);
      StemNuls(a, p.messages);
      StemNuls(b, q.messages);
      StemInjective(a, p.messages, b, q.messages);
      SplitLast(p.model, p.system, q.model, q.system);
    }
    if Seen(p) == Seen(q) {
      SeenKeepsBytes(p.messages);
      SeenKeepsBytes(q.messages);
    }
  }

  lemma HeadNuls(p: Prompt)
    requires NUL !in p.model && NUL !in p.system
    ensures Nuls(p.model + [NUL] + p.system) == 1
  {
    NulsConcat(p.model + [NUL], p.system);
    NulsConcat(p.model, [NUL]);
    assert [NUL][..0] == [];
    NoNuls(p.model);
    NoNuls(p.system);
  }

  /** The condition is not idle: a NUL in the model name makes two different prompts share a key. */
  lemma NulCollides(p: Prompt, i: nat)
    requires i < |p.model| && p.model[i] == NUL
    ensures var q := Prompt(p.model[..i], p.model[i + 1..] + [NUL] + p.system, p.messages);
            KeyBytes(q) == KeyBytes(p) && Seen(q) != Seen(p)
  {
    var q := Prompt(p.model[..i], p.model[i + 1..] + [NUL] + p.system, p.messages);
    assert p.model == p.model[..i] + [NUL] + p.model[i + 1..];
    assert p.model + [NUL] + p.system == q.model + [NUL] + q.system;
  }

  /** So does a first message: it can pass for the system text of a model name with a NUL. */
  lemma MessageCollides(p: Prompt)
    requires p.messages != []
    ensures var m := p.messages[0];
            var q := Prompt(p.model + [NUL] + p.system, RoleName(m.role) + m.content, p.messages[1..]);
            KeyBytes(q) == KeyBytes(p) && Seen(q) != Seen(p)
  {
    var m := p.messages[0];
    MessageBytesFront(p.messages);
    var head := p.model + [NUL] + p.system + [NUL];
    var text, rest := RoleName(m.role) + m.content, MessageBytes(p.messages[1..]);
    assert head + (OneMessage(m) + rest) == head + text + [NUL] + rest;
  }

  function OneMessage(m: Message): string { RoleName(m.role) + m.content + [NUL] }

  lemma {:induction false} MessageBytesFront(messages: seq<Message>)
    requires messages != []
    ensures MessageBytes(messages) == OneMessage(messages[0]) + MessageBytes(messages[1..])
    decreases |messages|
  {
    var n := |messages| - 1;
    if n > 0 {
      MessageBytesFront(messages[..n]);
      var tail := messages[1..];
      assert messages[..n][1..] == tail[..n - 1] && tail[n - 1] == messages[n];
      Associate(OneMessage(messages[0]), MessageBytes(tail[..n - 1]), RoleName(messages[n].role),
        messages[n].content, [NUL]);
    } else {
      assert messages[..0] == [] && messages[1..] == [];
      assert "" + RoleName(messages[0].role) == RoleName(messages[0].role);
    }
  }

  /** A NUL in the system text collides in the same way. */
  lemma SystemCollides(p: Prompt, i: nat)
    requires i < |p.system| && p.system[i] == NUL
    ensures var q := Prompt(p.model + [NUL] + p.system[..i], p.system[i + 1..], p.messages);
            KeyBytes(q) == KeyBytes(p) && Seen(q) != Seen(p)
  {
    assert p.system == p.system[..i] + [NUL] + p.system[i + 1..];
    assert p.model + [NUL] + p.system == (p.model + [NUL] + p.system[..i]) + [NUL] + p.system[i + 1..];
  }

  lemma {:induction false} StemAtLeast(head: string, messages: seq<Message>)
    ensures Nuls(Stem(head, messages)) >= Nuls(head) + |messages|
  {
    if messages != [] {
      var n, last := |messages| - 1, messages[|messages| - 1];
      StemAtLeast(head, messages[..n]);
      var a, t := Stem(head, messages[..n]), Text(last);
      NulsConcat(a + [NUL], t);
      NulsConcat(a, [NUL]);
      assert [NUL][..0] == [];
    }
  }

  /** Against arbitrary strings, the key of a prompt is its own exactly when the prompt has no
      messages and no NUL. */
  lemma KeyIsItsOwn(p: Prompt)
    ensures (forall q :: KeyBytes(q) == KeyBytes(p) ==> Seen(q) == Seen(p))
            <==> p.messages == [] && NUL !in p.model && NUL !in p.system
  {
    if p.messages == [] && NUL !in p.model && NUL !in p.system {
      forall q | KeyBytes(q) == KeyBytes(p) ensures Seen(q) == Seen(p) {
        OnlyPlain(p, q);
        KeyIdentifies(p, q);
      }
    } else if p.messages != [] {
      MessageCollides(p);
    } else if NUL in p.model {
      var i :| 0 <= i < |p.model| && p.model[i] == NUL;
      NulCollides(p, i);
    } else {
      var i :| 0 <= i < |p.system| && p.system[i] == NUL;
      SystemCollides(p, i);
    }
  }

  lemma OnlyPlain(p: Prompt, q: Prompt)
    requires p.messages == [] && NUL !in p.model && NUL !in p.system && KeyBytes(q) == KeyBytes(p)
    ensures NulFree(q) && q.messages == []
  {
    KeyStem(p);
    KeyStem(q);
    var a, b := p.model + [NUL] + p.system, q.model + [NUL] + q.system;
    var s, t := Stem(a, p.messages), Stem(b, q.messages);
    assert s == (s + [NUL])[..|s|] && t == (t + [NUL])[..|t|];
    HeadNuls(p);
    StemAtLeast(b, q.messages);
    NulsConcat(q.model + [NUL], q.system);
    NulsConcat(q.model, [NUL]);
    assert [NUL][..0] == [];
    NoNuls(q.model);
    NoNuls(q.system);
  }
}
