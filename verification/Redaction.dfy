/** Central masking of sensitive data in JSON-like values, by key name and by value. */
module Redaction {

  const REDACTED := "[redacted]"

  const MARKERS := [
    "secret", "token", "password", "passwd", "authorization", "api_key", "apikey", "access_key",
    "private_key", "credential", "cred", "prompt", "raw", "cookie", "session", "ssn", "pin", "otp",
    "signature"
  ]

  /** Dictionary keys; only textual ones are inspected. */
  datatype Key = Name(name: string) | Other(n: int)

  datatype Json =
    | Null
    | Flag(b: bool)
    | Number(n: real)
    | Str(s: string)
    | List(items: seq<Json>)
    | Tuple(items: seq<Json>)
    | Dict(entries: seq<Entry>)

  datatype Entry = Entry(key: Key, val: Json)

  // ---------------------------------------------------------------- what is sensitive

  function LowerChar(c: char): char {
    if 'A' <= c <= 'Z' then (c as int + 32) as char else c
  }

  function Lower(s: string): string {
    seq(|s|, i requires 0 <= i < |s| => LowerChar(s[i]))
  }

  predicate Contains(s: string, part: string) {
    exists i :: 0 <= i <= |s| && part <= s[i..]
  }

  predicate NameIsSensitive(name: string) {
    exists m | m in MARKERS :: Contains(Lower(name), m)
  }

  predicate KeyIsSensitive(key: Key) {
    key.Name? && NameIsSensitive(key.name)
  }

  predicate IsSpace(c: char) {
    var n := c as int;
    9 <= n <= 13 || 28 <= n <= 32 || n == 0x85 || n == 0xA0 || n == 0x1680 || 0x2000 <= n <= 0x200A
    || n == 0x2028 || n == 0x2029 || n == 0x202F || n == 0x205F || n == 0x3000
  }

  predicate IsAlnum(c: char) {
    '0' <= c <= '9' || 'a' <= c <= 'z' || 'A' <= c <= 'Z'
  }

  predicate IsWord(c: char) { IsAlnum(c) || c == '_' }

  predicate IsHex(c: char) { '0' <= c <= '9' || 'a' <= c <= 'f' }

  predicate IsSegmentChar(c: char) { IsAlnum(c) || c == '_' || c == '-' }

  predicate IsCompactChar(c: char) { IsSegmentChar(c) || c == '+' || c == '/' || c == '=' }

  function StripLeft(s: string): string {
    if s != "" && IsSpace(s[0]) then StripLeft(s[1..]) else s
  }

  function StripRight(s: string): string {
    if s != "" && IsSpace(s[|s| - 1]) then StripRight(s[..|s| - 1]) else s
  }

  /** An authorization header: the word, blanks, then something. */
  predicate IsBearer(v: string) {
    |v| > 6 && Lower(v[..6]) == "bearer" && IsSpace(v[6]) && exists j :: 6 < j < |v| && !IsSpace(v[j])
  }

  predicate IsSegment(s: string) {
    |s| >= 8 && forall c | c in s :: IsSegmentChar(c)
  }

  predicate SplitsAsJwt(v: string, i: nat, j: nat) {
    && i < j < |v| && v[i] == '.' && v[j] == '.'
    && IsSegment(v[..i]) && IsSegment(v[i + 1..j]) && IsSegment(v[j + 1..])
  }

  predicate IsJwt(v: string) {
    exists i, j :: 0 <= i < |v| && 0 <= j < |v| && SplitsAsJwt(v, i, j)
  }

  /** A whole word made of the credential prefix and at least six hexadecimal digits. */
  predicate CredentialAt(v: string, i: nat, j: nat) {
    && i + 9 <= j <= |v|
    && (i == 0 || !IsWord(v[i - 1])) && (j == |v| || !IsWord(v[j]))
    && v[i] == 'a' && v[i + 1] == 'c' && v[i + 2] == '_'
    && forall k | i + 3 <= k < j :: IsHex(v[k])
  }

  predicate HoldsCredential(v: string) {
    exists i, j :: 0 <= i <= |v| && 0 <= j <= |v| && CredentialAt(v, i, j)
  }

  predicate IsCompact(v: string) {
    |v| >= 40 && forall c | c in v :: IsCompactChar(c)
  }

  predicate LooksSecret(value: string) {
    var v := StripRight(StripLeft(value));
    v != "" && (IsBearer(v) || IsJwt(v) || HoldsCredential(v) || IsCompact(v))
  }

  /** Masking stops at its own sentinel. */
  lemma SentinelIsHarmless()
    ensures !LooksSecret(REDACTED)
  {
    var v := REDACTED;
    assert StripLeft(v) == v && StripRight(v) == v;
    assert Lower(v[..6])[0] == '[';
    assert forall i, j | 0 <= i <= |v| && 0 <= j <= |v| :: !CredentialAt(v, i, j);
  }

  // ---------------------------------------------------------------- the patterns, written out

  predicate Blank(s: string) { forall c | c in s :: IsSpace(c) }

  /** No blank at either end. */
  predicate Trimmed(s: string) {
    s != "" ==> !IsSpace(s[0]) && !IsSpace(s[|s| - 1])
  }

  lemma {:induction false} StripLeftCuts(s: string) returns (l: string)
    ensures s == l + StripLeft(s) && Blank(l)
    ensures StripLeft(s) != "" ==> !IsSpace(StripLeft(s)[0])
    decreases |s|
  {
    if s != "" && IsSpace(s[0]) {
      var rest := StripLeftCuts(s[1..]);
      l := [s[0]] + rest;
      assert s == [s[0]] + s[1..];
    } else {
      l := "";
    }
  }

  lemma {:induction false} StripRightCuts(s: string) returns (r: string)
    ensures s == StripRight(s) + r && Blank(r)
    ensures StripRight(s) != "" ==> !IsSpace(StripRight(s)[|StripRight(s)| - 1]) && StripRight(s)[0] == s[0]
    decreases |s|
  {
    if s != "" && IsSpace(s[|s| - 1]) {
      var rest := StripRightCuts(s[..|s| - 1]);
      r := rest + [s[|s| - 1]];
      assert s == s[..|s| - 1] + [s[|s| - 1]];
    } else {
      r := "";
    }
  }

  lemma {:induction false} LeftBlanksGo(l: string, s: string)
    requires Blank(l) && (s != "" ==> !IsSpace(s[0]))
    ensures StripLeft(l + s) == s
    decreases |l|
  {
    if l == "" {
      assert l + s == s;
    } else {
      assert (l + s)[1..] == l[1..] + s && l[0] in l;
      LeftBlanksGo(l[1..], s);
    }
  }

  lemma {:induction false} RightBlanksGo(s: string, r: string)
    requires Blank(r) && (s != "" ==> !IsSpace(s[|s| - 1]))
    ensures StripRight(s + r) == s
    decreases |r|
  {
    if r == "" {
      assert s + r == s;
    } else {
      assert (s + r)[..|s + r| - 1] == s + r[..|r| - 1] && r[|r| - 1] in r && (s + r)[|s + r| - 1] == r[|r| - 1];
      RightBlanksGo(s, r[..|r| - 1]);
    }
  }

  /** The word in any letter case, blanks, a character that is none, anything. */
  ghost predicate BearerShape(v: string) {
    exists w, b, c, rest :: v == w + b + [c] + rest && BearerParts(w, b, c)
  }

  predicate BearerParts(w: string, b: string, c: char) {
    Lower(w) == "bearer" && b != "" && Blank(b) && !IsSpace(c)
  }

  lemma BearerIsShape(v: string)
    ensures IsBearer(v) <==> BearerShape(v)
  {
    if IsBearer(v) {
      var j := FirstInk(v, 6);
      var w, b, c, rest := v[..6], v[6..j], v[j], v[j + 1..];
      assert v == w + b + [c] + rest && BearerParts(w, b, c);
    }
    if BearerShape(v) {
      var w, b, c, rest :| v == w + b + [c] + rest && BearerParts(w, b, c);
      assert |Lower(w)| == |w| == 6;
      assert v[..6] == w && v[6] == b[0] && b[0] in b && v[6 + |b|] == c;
    }
  }

  /** The first character after position i that is no blank. */
  lemma {:induction false} FirstInk(v: string, i: nat) returns (j: nat)
    requires exists k :: i < k < |v| && !IsSpace(v[k])
    requires i < |v| && IsSpace(v[i])
    ensures i < j < |v| && !IsSpace(v[j]) && Blank(v[i..j])
    decreases |v| - i
  {
    if IsSpace(v[i + 1]) {
      j := FirstInk(v, i + 1);
      assert v[i..j] == [v[i]] + v[i + 1..j];
    } else {
      j := i + 1;
      assert v[i..j] == [v[i]];
    }
  }

  /** Three segments of at least eight letters, digits, underscores or hyphens, with dots between them. */
  ghost predicate JwtShape(v: string) {
    exists a, b, c :: v == a + "." + b + "." + c && JwtParts(a, b, c)
  }

  predicate JwtParts(a: string, b: string, c: string) {
    && |a| >= 8 && |b| >= 8 && |c| >= 8
    && forall x | x in a + b + c :: '0' <= x <= '9' || 'a' <= x <= 'z' || 'A' <= x <= 'Z' || x == '_' || x == '-'
  }

  lemma JwtIsShape(v: string)
    ensures IsJwt(v) <==> JwtShape(v)
  {
    if IsJwt(v) {
      var i, j :| 0 <= i < |v| && 0 <= j < |v| && SplitsAsJwt(v, i, j);
      var a, b, c := v[..i], v[i + 1..j], v[j + 1..];
      assert v == a + "." + b + "." + c && JwtParts(a, b, c);
    }
    if JwtShape(v) {
      var a, b, c :| v == a + "." + b + "." + c && JwtParts(a, b, c);
      var i, j := |a|, |a| + 1 + |b|;
      assert v[..i] == a && v[i + 1..j] == b && v[j + 1..] == c;
      assert forall x | x in a || x in b || x in c :: x in a + b + c;
      assert SplitsAsJwt(v, i, j);
    }
  }

  /** Somewhere, as a word of its own, the prefix of agent credentials and six or more hexadecimal digits. */
  ghost predicate CredentialShape(v: string) {
    exists before, hex, rest :: v == before + "ac_" + hex + rest && CredentialParts(before, hex, rest)
  }

  predicate CredentialParts(before: string, hex: string, rest: string) {
    && |hex| >= 6 && (forall x | x in hex :: '0' <= x <= '9' || 'a' <= x <= 'f')
    && (before != "" ==> !IsWord(before[|before| - 1])) && (rest != "" ==> !IsWord(rest[0]))
  }

  lemma CredentialHasShape(v: string, i: nat, j: nat)
    requires i <= |v| && j <= |v| && CredentialAt(v, i, j)
    ensures CredentialShape(v)
  {
    var before, hex, rest := v[..i], v[i + 3..j], v[j..];
    assert v[i..i + 3] == "ac_";
    assert v == before + v[i..i + 3] + hex + rest;
    assert CredentialParts(before, hex, rest);
  }

  lemma ShapeHoldsCredential(before: string, hex: string, rest: string)
    requires CredentialParts(before, hex, rest)
    ensures HoldsCredential(before + "ac_" + hex + rest)
  {
    var v := before + "ac_" + hex + rest;
    var i, j := |before|, |before| + 3 + |hex|;
    assert forall k | i + 3 <= k < j :: v[k] == hex[k - i - 3] && hex[k - i - 3] in hex;
    assert i > 0 ==> v[i - 1] == before[i - 1];
    assert j < |v| ==> v[j] == rest[0];
    assert CredentialAt(v, i, j);
  }

  lemma CredentialIsShape(v: string)
    ensures HoldsCredential(v) <==> CredentialShape(v)
  {
    if HoldsCredential(v) {
      var i, j :| 0 <= i <= |v| && 0 <= j <= |v| && CredentialAt(v, i, j);
      CredentialHasShape(v, i, j);
    }
    if CredentialShape(v) {
      var before, hex, rest :| v == before + "ac_" + hex + rest && CredentialParts(before, hex, rest);
      ShapeHoldsCredential(before, hex, rest);
    }
  }

  /** Forty or more characters of an encoded key, and no other. */
  predicate KeyShape(v: string) {
    && |v| >= 40
    && forall x | x in v :: '0' <= x <= '9' || 'a' <= x <= 'z' || 'A' <= x <= 'Z' || x == '_' || x == '-' || x == '+' || x == '/' || x == '='
  }

  ghost predicate SecretShape(v: string) {
    BearerShape(v) || JwtShape(v) || CredentialShape(v) || KeyShape(v)
  }

  ghost predicate SurroundedBy(value: string, l: string, v: string, r: string) {
    value == l + v + r && Blank(l) && Blank(r) && v != "" && Trimmed(v)
  }

  /** A text looks like a secret exactly when, blanks around it aside, it has the shape of one. */
  lemma SecretsHaveShapes(value: string)
    ensures LooksSecret(value) <==> exists l, v, r :: SurroundedBy(value, l, v, r) && SecretShape(v)
  {
    if LooksSecret(value) {
      var l := StripLeftCuts(value);
      var r := StripRightCuts(StripLeft(value));
      var v := StripRight(StripLeft(value));
      assert value == l + v + r;
      ShapesOf(v);
      assert SurroundedBy(value, l, v, r);
    }
    if l, v, r :| SurroundedBy(value, l, v, r) && SecretShape(v) {
      assert value == l + (v + r);
      LeftBlanksGo(l, v + r);
      RightBlanksGo(v, r);
      ShapesOf(v);
    }
  }

  lemma ShapesOf(v: string)
    ensures SecretShape(v) <==> IsBearer(v) || IsJwt(v) || HoldsCredential(v) || IsCompact(v)
  {
    BearerIsShape(v);
    JwtIsShape(v);
    CredentialIsShape(v);
  }

  /** The same letter, whatever its case. */
  predicate SameLetter(c: char, marker: char) {
    c == marker || ('a' <= marker <= 'z' && c as int == marker as int - 32)
  }

  /** From position i on the name spells the marker. */
  predicate Spells(name: string, m: string, i: nat) {
    i + |m| <= |name| && forall k | 0 <= k < |m| :: SameLetter(name[i + k], m[k])
  }

  lemma SpellsIsPrefix(name: string, m: string, i: nat)
    requires i <= |name| && forall c | c in m :: !('A' <= c <= 'Z')
    ensures m <= Lower(name)[i..] <==> Spells(name, m, i)
  {
    if i + |m| <= |name| {
      var low := Lower(name)[i..];
      forall k | 0 <= k < |m| ensures low[k] == m[k] <==> SameLetter(name[i + k], m[k]) {
        assert m[k] in m;
      }
      assert m <= low <==> forall k | 0 <= k < |m| :: low[k] == m[k];
    }
  }

  /** A name is sensitive exactly when it spells a marker somewhere, in whatever mixture of letter cases. */
  lemma NamesSpellMarkers(name: string)
    ensures NameIsSensitive(name) <==> exists m, i: nat :: m in MARKERS && Spells(name, m, i)
  {
    MarkersAreLower();
    if NameIsSensitive(name) {
      var m :| m in MARKERS && Contains(Lower(name), m);
      var i :| 0 <= i <= |name| && m <= Lower(name)[i..];
      SpellsIsPrefix(name, m, i);
    }
    if m, i: nat :| m in MARKERS && Spells(name, m, i) {
      SpellsIsPrefix(name, m, i);
      assert Contains(Lower(name), m);
    }
  }

  lemma MarkersAreLower()
    ensures forall m, c | m in MARKERS && c in m :: !('A' <= c <= 'Z')
  {
  }

  // ---------------------------------------------------------------- redaction

  function RedactText(s: string): string {
    if LooksSecret(s) then REDACTED else s
  }

  function Redacted(v: Json): Json {
    match v
    case Str(s) => Str(RedactText(s))
    case List(items) => List(seq(|items|, i requires 0 <= i < |items| => Redacted(items[i])))
    case Tuple(items) => List(seq(|items|, i requires 0 <= i < |items| => Redacted(items[i])))
    case Dict(entries) => Dict(seq(|entries|, i requires 0 <= i < |entries| => RedactedEntry(entries[i])))
    case _ => v
  }

  function RedactedEntry(e: Entry): Entry {
    Entry(e.key, if KeyIsSensitive(e.key) then Str(REDACTED) else Redacted(e.val))
  }

  /** Nothing to hide at any depth: what may be stored or shown as it is. */
  predicate Clean(v: Json) {
    match v
    case Str(s) => !LooksSecret(s)
    case List(items) => forall x | x in items :: Clean(x)
    case Tuple(_) => false
    case Dict(entries) => forall e | e in entries :: CleanEntry(e)
    case _ => true
  }

  predicate CleanEntry(e: Entry) {
    if KeyIsSensitive(e.key) then e.val == Str(REDACTED) else Clean(e.val)
  }

  /** Redaction lands in the clean values, and leaves alone exactly those. */
  lemma {:induction false} RedactionIsProjection(v: Json)
    ensures Clean(Redacted(v))
    ensures Redacted(v) == v <==> Clean(v)
  {
    SentinelIsHarmless();
    match v
    case List(items) =>
      SequenceProjection(items);
    case Tuple(items) =>
      SequenceProjection(items);
    case Dict(entries) =>
      var out := Redacted(v).entries;
      forall i | 0 <= i < |entries|
        ensures CleanEntry(out[i]) && (out[i] == entries[i] <==> CleanEntry(entries[i]))
      {
        assert out[i] == RedactedEntry(entries[i]);
        RedactionIsProjection(entries[i].val);
      }
      if Redacted(v) == v {
        assert forall i | 0 <= i < |entries| :: out[i] == entries[i];
      }
      if Clean(v) {
        assert out == entries;
      }
    case _ =>
  }

  lemma {:induction false} SequenceProjection(items: seq<Json>)
    ensures var out := seq(|items|, i requires 0 <= i < |items| => Redacted(items[i]));
            && (forall x | x in out :: Clean(x))
            && (out == items <==> forall x | x in items :: Clean(x))
  {
    var out := seq(|items|, i requires 0 <= i < |items| => Redacted(items[i]));
    forall i | 0 <= i < |items|
      ensures Clean(out[i]) && (out[i] == items[i] <==> Clean(items[i]))
    {
      RedactionIsProjection(items[i]);
    }
    if out == items {
      assert forall i | 0 <= i < |items| :: out[i] == items[i];
    }
    if forall x | x in items :: Clean(x) {
      assert out == items;
    }
  }

  lemma RedactionIsIdempotent(v: Json)
    ensures Redacted(Redacted(v)) == Redacted(v)
  {
    RedactionIsProjection(v);
    RedactionIsProjection(Redacted(v));
  }

  // ---------------------------------------------------------------- what is kept

  /** What stands at a path of child positions, and whether a sensitive key hides it. */
  datatype View = Absent | Hidden | Seen(v: Json)

  function Look(v: Json, path: seq<nat>): View {
    if path == [] then Seen(v)
    else
      match v
      case List(items) => if path[0] < |items| then Look(items[path[0]], path[1..]) else Absent
      case Tuple(items) => if path[0] < |items| then Look(items[path[0]], path[1..]) else Absent
      case Dict(entries) =>
        if path[0] >= |entries| then Absent
        else if KeyIsSensitive(entries[path[0]].key) then Hidden
        else Look(entries[path[0]].val, path[1..])
      case _ => Absent
  }

  function Keys(entries: seq<Entry>): seq<Key> {
    seq(|entries|, i requires 0 <= i < |entries| => entries[i].key)
  }

  /** The same outermost form: keys in order, lengths, and every leaf but a secret string. */
  predicate KeepsForm(v: Json, w: Json) {
    match v
    case Str(s) => w == Str(if LooksSecret(s) then REDACTED else s)
    case List(items) => w.List? && |w.items| == |items|
    case Tuple(items) => w.List? && |w.items| == |items|
    case Dict(entries) => w.Dict? && Keys(w.entries) == Keys(entries)
    case _ => w == v
  }

  /** Outside sensitive keys the masked value has the same structure, path by path. */
  lemma {:induction false} RedactionKeepsForm(v: Json, path: seq<nat>)
    ensures var before, after := Look(v, path), Look(Redacted(v), path);
            match before
            case Absent => after == Absent
            case Hidden => after == Hidden
            case Seen(w) => after.Seen? && KeepsForm(w, after.v)
  {
    if path == [] {
      if v.Dict? {
        assert Keys(Redacted(v).entries) == Keys(v.entries);
      }
    } else {
      match v
      case List(items) =>
        if path[0] < |items| { RedactionKeepsForm(items[path[0]], path[1..]); }
      case Tuple(items) =>
        if path[0] < |items| { RedactionKeepsForm(items[path[0]], path[1..]); }
      case Dict(entries) =>
        if path[0] < |entries| && !KeyIsSensitive(entries[path[0]].key) {
          RedactionKeepsForm(entries[path[0]].val, path[1..]);
        }
      case _ =>
    }
  }

  // ---------------------------------------------------------------- the code

  /** A dictionary holds each key once. */
  predicate Proper(v: Json) {
    match v
    case List(items) => forall x | x in items :: Proper(x)
    case Tuple(items) => forall x | x in items :: Proper(x)
    case Dict(entries) =>
      && (forall e: Entry | e in entries :: Proper(e.val))
      && forall i, j | 0 <= i < j < |entries| :: entries[i].key != entries[j].key
    case _ => true
  }

  /** `out[key] = val` on an insertion-ordered dictionary. */
  function Assign(out: seq<Entry>, key: Key, val: Json): seq<Entry> {
    if out == [] then [Entry(key, val)]
    else if out[0].key == key then [Entry(key, val)] + out[1..]
    else [out[0]] + Assign(out[1..], key, val)
  }

  lemma {:induction false} AssignFresh(out: seq<Entry>, key: Key, val: Json)
    requires forall e | e in out :: e.key != key
    ensures Assign(out, key, val) == out + [Entry(key, val)]
  {
    if out == [] {
    } else {
      assert out[0] in out;
      AssignFresh(out[1..], key, val);
      assert [out[0]] + (out[1..] + [Entry(key, val)]) == out + [Entry(key, val)];
    }
  }

  method Redact(value: Json) returns (r: Json)
    requires Proper(value)
    ensures r == Redacted(value)
    decreases value
  {
    match value
    case Dict(entries) =>
      var out: seq<Entry> := [];
      for i := 0 to |entries|
        invariant |out| == i
        invariant forall k | 0 <= k < i :: out[k] == RedactedEntry(entries[k])
      {
        var key, val := entries[i].key, entries[i].val;
        assert entries[i] in entries;
        AssignFresh(out, key, Str(REDACTED));
        if KeyIsSensitive(key) {
          out := Assign(out, key, Str(REDACTED));
        } else {
          var masked := Redact(val);
          AssignFresh(out, key, masked);
          out := Assign(out, key, masked);
        }
      }
      assert out == Redacted(value).entries;
      r := Dict(out);
    case List(items) =>
      var out := RedactItems(items);
      assert out == Redacted(value).items;
      r := List(out);
    case Tuple(items) =>
      var out := RedactItems(items);
      assert out == Redacted(value).items;
      r := List(out);
    case Str(s) => r := Str(RedactText(s));
    case _ => r := value;
  }

  method RedactItems(items: seq<Json>) returns (out: seq<Json>)
    requires forall x | x in items :: Proper(x)
    ensures |out| == |items| && forall i | 0 <= i < |items| :: out[i] == Redacted(items[i])
    decreases items
  {
    out := [];
    for i := 0 to |items|
      invariant |out| == i
      invariant forall k | 0 <= k < i :: out[k] == Redacted(items[k])
    {
      var x := Redact(items[i]);
      out := out + [x];
    }
  }
}
