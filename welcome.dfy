/**
 * The DAPNET proxy's welcome-message encoder: it rewrites the first welcome
 * banner `[name vversion]` to carry the frontend credentials, then detaches.
 *
 * `MatchWelcome` is a hand-written recognizer for the full match of
 * `\[([/\p{Alnum}]+) v?(\d[\d\.]+[\p{Graph}]*)\]` in Java's default (ASCII)
 * mode; `Banner` and the `Valid...` predicates describe the same language
 * declaratively, and the lemmas show the two agree.  The pipeline removal is
 * the `armed` field of the class.
 */
module Welcome {
  import opened Text
  import opened Wrappers

  /** The two capture groups of the welcome pattern. */
  datatype Groups = Groups(name: string, version: string)

  /** `[/\p{Alnum}]` */
  predicate IsNameChar(c: char) {
    c == '/' || IsAlnum(c)
  }

  /** `[/\p{Alnum}]+` */
  predicate ValidName(name: string) {
    |name| >= 1 && forall i :: 0 <= i < |name| ==> IsNameChar(name[i])
  }

  /**
   * `\d[\d\.]+[\p{Graph}]*`: a digit, then a digit or a dot, then any visible
   * characters (every character of `[\d\.]` is also visible).
   */
  predicate ValidVersion(version: string) {
    && |version| >= 2
    && IsDigit(version[0])
    && (IsDigit(version[1]) || version[1] == '.')
    && forall i :: 2 <= i < |version| ==> IsGraph(version[i])
  }

  /** A line of the shape the pattern matches, with or without the `v`. */
  function Banner(name: string, withV: bool, version: string): string {
    "[" + name + " " + (if withV then "v" else "") + version + "]"
  }

  /** The length of the longest prefix of `s` made of name characters. */
  function NameSpan(s: string): (n: nat)
    ensures n <= |s|
    ensures forall i :: 0 <= i < n ==> IsNameChar(s[i])
    ensures n < |s| ==> !IsNameChar(s[n])
  {
    if s == [] || !IsNameChar(s[0]) then 0 else 1 + NameSpan(s[1..])
  }

  /** `WELCOME_PATTERN.matcher(msg).matches()` with its two groups. */
  function MatchWelcome(msg: string): Option<Groups> {
    if |msg| < 2 || msg[0] != '[' || msg[|msg| - 1] != ']' then None
    else MatchBody(msg[1..|msg| - 1])
  }

  /** Between the brackets: the name, one space, then the version part. */
  function MatchBody(body: string): Option<Groups> {
    var n := NameSpan(body);
    if n == 0 || n == |body| || body[n] != ' ' then None
    else MatchVersion(body[..n], body[n + 1..])
  }

  /** After the space: an optional `v`, then the version. */
  function MatchVersion(name: string, rest: string): Option<Groups> {
    var withV := |rest| > 0 && rest[0] == 'v';
    var version := if withV then rest[1..] else rest;
    if !ValidVersion(version) then None
    else Some(Groups(name, version))
  }

  /** Soundness: a match has a valid name and version, and the line is the banner they make. */
  lemma MatchSound(msg: string)
    ensures var r := MatchWelcome(msg);
            r.Some? ==> && ValidName(r.value.name) && ValidVersion(r.value.version)
                        && (msg == Banner(r.value.name, false, r.value.version)
                            || msg == Banner(r.value.name, true, r.value.version))
  {
    if MatchWelcome(msg).Some? {
      var body := msg[1..|msg| - 1];
      var n := NameSpan(body);
      var rest := body[n + 1..];
      var withV := |rest| > 0 && rest[0] == 'v';
      BannerParts(msg, n, withV);
    }
  }

  /** How a bracketed line splits at the space after the name and at the optional `v`. */
  lemma BannerParts(msg: string, n: nat, withV: bool)
    requires |msg| >= 2 && msg[0] == '[' && msg[|msg| - 1] == ']'
    requires n < |msg| - 2 && msg[1 + n] == ' '
    requires withV ==> n + 1 < |msg| - 2 && msg[n + 2] == 'v'
    ensures msg == Banner(msg[1..1 + n], withV, msg[(if withV then n + 3 else n + 2)..|msg| - 1])
    ensures msg[1..|msg| - 1][..n] == msg[1..1 + n]
    ensures msg[1..|msg| - 1][n + 1..] == msg[n + 2..|msg| - 1]
    ensures withV ==> msg[n + 2..|msg| - 1][1..] == msg[n + 3..|msg| - 1]
  {
    var k := if withV then n + 3 else n + 2;
    var b := Banner(msg[1..1 + n], withV, msg[k..|msg| - 1]);
    assert |b| == |msg|;
    forall i | 0 <= i < |msg| ensures b[i] == msg[i] {
      if i == 0 {
      } else if i < 1 + n {
        assert b[i] == msg[1..1 + n][i - 1];
      } else if i == 1 + n {
      } else if withV && i == n + 2 {
      } else if i < |msg| - 1 {
        assert b[i] == msg[k..|msg| - 1][i - k];
      }
    }
  }

  /** Every line of the pattern's shape matches, with the name and version as its groups. */
  lemma MatchComplete(name: string, withV: bool, version: string)
    requires ValidName(name) && ValidVersion(version)
    ensures MatchWelcome(Banner(name, withV, version)) == Some(Groups(name, version))
  {
    var tail := (if withV then "v" else "") + version;
    BannerShape(name, tail, withV, version);
    if withV {
      assert tail[0] == 'v' && tail[1..] == version;
    } else {
      assert tail == version && tail[0] != 'v';
    }
    assert MatchVersion(name, tail) == Some(Groups(name, version));
    BodyMatches(name, tail);
    WrappedMatches(name + (" " + tail));
  }

  lemma BodyMatches(name: string, tail: string)
    requires ValidName(name)
    ensures MatchBody(name + (" " + tail)) == MatchVersion(name, tail)
  {
    NameSpanOfName(name, " " + tail);
    Split(name, tail);
  }

  lemma WrappedMatches(body: string)
    ensures MatchWelcome("[" + body + "]") == MatchBody(body)
  {
    Unwrap(body);
  }

  lemma BannerShape(name: string, tail: string, withV: bool, version: string)
    requires tail == (if withV then "v" else "") + version
    ensures Banner(name, withV, version) == "[" + (name + (" " + tail)) + "]"
  {
  }

  lemma Unwrap(x: string)
    ensures |"[" + x + "]"| == |x| + 2
    ensures ("[" + x + "]")[0] == '[' && ("[" + x + "]")[|x| + 1] == ']'
    ensures ("[" + x + "]")[1..|x| + 1] == x
  {
  }

  lemma Split(name: string, tail: string)
    ensures (name + (" " + tail))[..|name|] == name
    ensures (name + (" " + tail))[|name|] == ' '
    ensures (name + (" " + tail))[|name| + 1..] == tail
  {
  }

  lemma {:induction false} NameSpanOfName(name: string, s: string)
    requires forall i :: 0 <= i < |name| ==> IsNameChar(name[i])
    requires s != [] && !IsNameChar(s[0])
    ensures NameSpan(name + s) == |name|
  {
    if name != [] {
      assert (name + s)[1..] == name[1..] + s;
      NameSpanOfName(name[1..], s);
    } else {
      assert name + s == s;
    }
  }

  /** The reply line: `[name vversion authName authKey]`. */
  function Format(g: Groups, authName: string, authKey: string): string {
    "[" + g.name + " v" + g.version + " " + authName + " " + authKey + "]"
  }

  /** One line through an armed encoder: a matching line is rewritten, any other passes unchanged. */
  function Rewrite(msg: string, authName: string, authKey: string): (r: string)
    ensures MatchWelcome(msg).None? ==> r == msg
    ensures MatchWelcome(msg).Some? ==> r == Format(MatchWelcome(msg).value, authName, authKey)
  {
    match MatchWelcome(msg)
    case Some(g) => Format(g, authName, authKey)
    case None => msg
  }

  /** The `v` is optional in the banner and always present in the reply. */
  lemma VersionPrefixOptional(name: string, version: string, authName: string, authKey: string)
    requires ValidName(name) && ValidVersion(version)
    ensures Rewrite(Banner(name, false, version), authName, authKey)
         == Rewrite(Banner(name, true, version), authName, authKey)
         == "[" + name + " v" + version + " " + authName + " " + authKey + "]"
  {
    MatchComplete(name, false, version);
    MatchComplete(name, true, version);
  }

  lemma MatchesTestBanner()
    ensures MatchWelcome("[Test v1.0]") == Some(Groups("Test", "1.0"))
  {
    assert Banner("Test", true, "1.0") == "[Test v1.0]";
    MatchComplete("Test", true, "1.0");
  }

  lemma MatchesTaggedTestBanner()
    ensures MatchWelcome("[Test v1.0.0-SCP-#123456]") == Some(Groups("Test", "1.0.0-SCP-#123456"))
  {
    assert "[" + "Test" + " " + "v" + "1.0.0-SCP-#123456" + "]" == "[Test v1.0.0-SCP-#123456]";
    MatchComplete("Test", true, "1.0.0-SCP-#123456");
  }

  lemma FormatsTestReplies()
    ensures Format(Groups("Test", "1.0"), "name", "key") == "[Test v1.0 name key]"
    ensures Format(Groups("Test", "1.0.0-SCP-#123456"), "name", "key") == "[Test v1.0.0-SCP-#123456 name key]"
  {
    assert "[" + "Test" + " v" + "1.0.0-SCP-#123456" == "[Test v1.0.0-SCP-#123456";
    assert "[Test v1.0.0-SCP-#123456" + " " + "name" == "[Test v1.0.0-SCP-#123456 name";
  }

  /** The two banners of the encoder's unit test are rewritten. */
  lemma BannerExamples()
    ensures Rewrite("[Test v1.0]", "name", "key") == "[Test v1.0 name key]"
    ensures Rewrite("[Test v1.0.0-SCP-#123456]", "name", "key") == "[Test v1.0.0-SCP-#123456 name key]"
  {
    MatchesTestBanner();
    MatchesTaggedTestBanner();
    FormatsTestReplies();
  }

  /** The two other lines of the unit test pass unchanged. */
  lemma PassThroughExamples()
    ensures Rewrite("forward", "name", "key") == "forward"
    ensures Rewrite("Test/RPC v1.0", "name", "key") == "Test/RPC v1.0"
  {
    assert "forward"[0] != '[';
    assert "Test/RPC v1.0"[0] != '[';
  }

  /** A version needs at least two characters before any tail. */
  lemma SingleDigitVersionRejected()
    ensures MatchWelcome("[Test v1]").None?
  {
    var body := "[Test v1]"[1..8];
    assert body == "Test" + " v1";
    NameSpanOfName("Test", " v1");
    assert body[5..] == "v1" && "v1"[1..] == "1";
  }

  /** `\p{Graph}` includes `]`, so a second closing bracket becomes part of the version. */
  lemma TrailingBracketInVersion()
    ensures MatchWelcome("[a v1.0]]") == Some(Groups("a", "1.0]"))
  {
    assert Banner("a", true, "1.0]") == "[a v1.0]]";
    MatchComplete("a", true, "1.0]");
  }

  /** True when none of `msgs` matches the pattern. */
  predicate NoBanner(msgs: seq<string>) {
    msgs == [] || (NoBanner(msgs[..|msgs| - 1]) && MatchWelcome(msgs[|msgs| - 1]).None?)
  }

  /** The lines a fresh encoder emits for `msgs`: one per input. */
  function EncodeStream(authName: string, authKey: string, msgs: seq<string>): (out: seq<string>)
    ensures |out| == |msgs|
  {
    if msgs == [] then []
    else
      var prefix := msgs[..|msgs| - 1];
      var last := msgs[|msgs| - 1];
      EncodeStream(authName, authKey, prefix) + [if NoBanner(prefix) then Rewrite(last, authName, authKey) else last]
  }

  /** The i-th line is the first banner of the stream. */
  predicate IsFirstBanner(msgs: seq<string>, i: nat)
    requires i < |msgs|
  {
    NoBanner(msgs[..i]) && MatchWelcome(msgs[i]).Some?
  }

  lemma {:induction false} NoBannerAll(msgs: seq<string>)
    requires NoBanner(msgs)
    ensures forall j :: 0 <= j < |msgs| ==> MatchWelcome(msgs[j]).None?
  {
    if msgs != [] {
      var n := |msgs|;
      NoBannerAll(msgs[..n - 1]);
      forall j | 0 <= j < n - 1 ensures MatchWelcome(msgs[j]).None? {
        assert msgs[..n - 1][j] == msgs[j];
      }
    }
  }

  lemma NoBannerAt(msgs: seq<string>, j: nat, i: nat)
    requires i < j <= |msgs| && NoBanner(msgs[..j])
    ensures MatchWelcome(msgs[i]).None?
  {
    NoBannerAll(msgs[..j]);
    assert msgs[..j][i] == msgs[i];
  }

  lemma {:induction false} NoBannerFromAll(msgs: seq<string>)
    requires forall j :: 0 <= j < |msgs| ==> MatchWelcome(msgs[j]).None?
    ensures NoBanner(msgs)
  {
    if msgs != [] {
      var n := |msgs|;
      assert forall j :: 0 <= j < n - 1 ==> msgs[..n - 1][j] == msgs[j];
      NoBannerFromAll(msgs[..n - 1]);
    }
  }

  /**
   * Every emitted line is its input, except the first banner of the stream,
   * which is rewritten; so at most one line is ever rewritten.
   */
  lemma {:induction false} EncodeStreamAt(authName: string, authKey: string, msgs: seq<string>, i: nat)
    requires i < |msgs|
    ensures EncodeStream(authName, authKey, msgs)[i]
         == if IsFirstBanner(msgs, i) then Rewrite(msgs[i], authName, authKey) else msgs[i]
  {
    var n := |msgs|;
    var prefix := msgs[..n - 1];
    if i < n - 1 {
      EncodeStreamAt(authName, authKey, prefix, i);
      assert prefix[..i] == msgs[..i];
      assert prefix[i] == msgs[i];
    } else {
      assert msgs[..i] == prefix;
      if !NoBanner(prefix) {
        assert !IsFirstBanner(msgs, i);
      }
    }
  }

  /** Once a banner has gone through, no later line is a first banner. */
  lemma AtMostOneRewrite(msgs: seq<string>, i: nat, j: nat)
    requires i < j < |msgs| && IsFirstBanner(msgs, i)
    ensures !IsFirstBanner(msgs, j)
  {
    if NoBanner(msgs[..j]) {
      NoBannerAt(msgs, j, i);
      assert false;
    }
  }

  /** `new WelcomeMessageEncoder(authName, authKey)`: the name of the rejected argument, if any. */
  function CredentialError(authName: Option<string>, authKey: Option<string>): (r: Option<string>)
    ensures r == Some("name") <==> authName.None? || authName.value == ""
    ensures r == Some("authKey") <==> (authName.Some? && authName.value != "") && (authKey.None? || authKey.value == "")
    ensures r.None? <==> authName.Some? && authName.value != "" && authKey.Some? && authKey.value != ""
  {
    if authName.None? || authName.value == "" then Some("name")
    else if authKey.None? || authKey.value == "" then Some("authKey")
    else None
  }

  class WelcomeMessageEncoder {
    const authName: string
    const authKey: string
    /** False once the encoder has removed itself from the pipeline. */
    var armed: bool
    ghost var inputs: seq<string>
    ghost var outputs: seq<string>

    ghost predicate Valid()
      reads this
    {
      && authName != "" && authKey != ""
      && outputs == EncodeStream(authName, authKey, inputs)
      && armed == NoBanner(inputs)
    }

    constructor (authName: string, authKey: string)
      requires authName != "" && authKey != ""
      ensures Valid() && armed && inputs == []
      ensures this.authName == authName && this.authKey == authKey
    {
      this.authName, this.authKey := authName, authKey;
      armed := true;
      inputs, outputs := [], [];
    }

    /** The Java constructor, whose argument checks throw; `None` stands for `null`. */
    static method Create(authName: Option<string>, authKey: Option<string>)
      returns (r: Result<WelcomeMessageEncoder, string>)
      ensures r.Failure? <==> CredentialError(authName, authKey).Some?
      ensures r.Failure? ==> r.error == CredentialError(authName, authKey).value
      ensures r.Success? ==> fresh(r.value) && r.value.Valid() && r.value.armed && r.value.inputs == []
      ensures r.Success? ==> r.value.authName == authName.value && r.value.authKey == authKey.value
    {
      if authName.None? || authName.value == "" {
        return Failure("name");
      } else if authKey.None? || authKey.value == "" {
        return Failure("authKey");
      }
      var e := new WelcomeMessageEncoder(authName.value, authKey.value);
      r := Success(e);
    }

    /** `encode`: rewrite the line if it is a banner and the encoder is still in the pipeline. */
    method Encode(msg: string) returns (out: string)
      requires Valid()
      modifies this
      ensures Valid() && inputs == old(inputs) + [msg] && outputs == old(outputs) + [out]
      ensures out == (if old(armed) then Rewrite(msg, authName, authKey) else msg)
      ensures armed == (old(armed) && MatchWelcome(msg).None?)
    {
      out := msg;
      if armed {
        var m := MatchWelcome(msg);
        if m.Some? {
          out := Format(m.value, authName, authKey);
          armed := false;
        }
      }
      assert (inputs + [msg])[..|inputs|] == inputs;
      inputs, outputs := inputs + [msg], outputs + [out];
    }
  }
}
