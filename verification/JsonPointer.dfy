// Model of jsonPatchEscape, setPodLabel and removePodLabel in
// pkg/actuator/pairing_kube.go: a label key becomes one reference token of a
// JSON Pointer (RFC 6901), and a label changes by one JSON Patch operation.
module JsonPointer {
  import opened Basics

  // ------------------------------------------------------------------ escaping

  /** strings.ReplaceAll for a one-character pattern. */
  function ReplaceAll(s: string, c: char, sub: string): string {
    if s == "" then ""
    else (if s[0] == c then sub else [s[0]]) + ReplaceAll(s[1..], c, sub)
  }

  function JsonPatchEscape(s: string): string {
    ReplaceAll(ReplaceAll(s, '~', "~0"), '/', "~1")
  }

  /** The character map of RFC 6901, section 3. */
  function EscapeChar(c: char): string {
    if c == '~' then "~0" else if c == '/' then "~1" else [c]
  }

  function EscapeEach(s: string): string {
    if s == "" then "" else EscapeChar(s[0]) + EscapeEach(s[1..])
  }

  lemma {:induction false} ReplaceAllConcat(a: string, b: string, c: char, sub: string)
    ensures ReplaceAll(a + b, c, sub) == ReplaceAll(a, c, sub) + ReplaceAll(b, c, sub)
  {
    if a == "" {
      assert a + b == b;
    } else {
      assert (a + b)[1..] == a[1..] + b;
      ReplaceAllConcat(a[1..], b, c, sub);
    }
  }

  /** The two passes of the source amount to one pass over the characters. */
  lemma {:induction false} EscapeIsOnePass(s: string)
    ensures JsonPatchEscape(s) == EscapeEach(s)
  {
    if s != "" {
      EscapeIsOnePass(s[1..]);
      var head := if s[0] == '~' then "~0" else [s[0]];
      ReplaceAllConcat(head, ReplaceAll(s[1..], '~', "~0"), '/', "~1");
      assert ReplaceAll(head, '/', "~1") == EscapeChar(s[0]) by {
        assert head[1..] == if s[0] == '~' then "0" else "";
        assert "0"[1..] == "";
      }
    }
  }

  /** Character by character: '~' becomes "~0", '/' becomes "~1", and every other one stays. */
  lemma EscapeExactly(c: char, s: string)
    ensures JsonPatchEscape("") == ""
    ensures JsonPatchEscape([c] + s) == (if c == '~' then "~0" else if c == '/' then "~1" else [c]) + JsonPatchEscape(s)
  {
    EscapeIsOnePass([c] + s);
    EscapeIsOnePass(s);
    assert ([c] + s)[1..] == s;
  }

  /** No '/' is left, and every '~' starts "~0" or "~1". */
  predicate IsToken(t: string) {
    t == "" ||
    if t[0] == '~' then |t| > 1 && t[1] in {'0', '1'} && IsToken(t[2..])
    else t[0] != '/' && IsToken(t[1..])
  }

  lemma {:induction false} EscapeIsToken(s: string)
    ensures IsToken(JsonPatchEscape(s))
  {
    EscapeIsOnePass(s);
    if s != "" {
      EscapeIsOnePass(s[1..]);
      EscapeIsToken(s[1..]);
      var t := EscapeEach(s);
      assert t[|EscapeChar(s[0])|..] == EscapeEach(s[1..]);
    }
  }

  // ------------------------------------------------------------------ decoding

  /** strings.ReplaceAll for a two-character pattern: leftmost matches, no overlap. */
  function ReplacePair(s: string, a: char, b: char, sub: char): string {
    if |s| < 2 then s
    else if s[0] == a && s[1] == b then [sub] + ReplacePair(s[2..], a, b, sub)
    else [s[0]] + ReplacePair(s[1..], a, b, sub)
  }

  /** RFC 6901, section 4: first "~1" to "/", then "~0" to "~". */
  function Decode(t: string): string {
    ReplacePair(ReplacePair(t, '~', '1', '/'), '~', '0', '~')
  }

  lemma PairSkip(c: char, s: string, b: char, sub: char)
    requires c != '~' || s == "" || s[0] != b
    ensures ReplacePair([c] + s, '~', b, sub) == [c] + ReplacePair(s, '~', b, sub)
  {
    assert ([c] + s)[1..] == s;
  }

  lemma PairHit(b: char, s: string, sub: char)
    ensures ReplacePair(['~', b] + s, '~', b, sub) == [sub] + ReplacePair(s, '~', b, sub)
  {
    assert (['~', b] + s)[2..] == s;
  }

  lemma {:induction false} DecodeSlashes(s: string)
    ensures ReplacePair(EscapeEach(s), '~', '1', '/') == ReplaceAll(s, '~', "~0")
  {
    if s != "" {
      DecodeSlashes(s[1..]);
      var rest := EscapeEach(s[1..]);
      if s[0] == '~' {
        assert EscapeEach(s) == ['~'] + (['0'] + rest);
        PairSkip('~', ['0'] + rest, '1', '/');
        PairSkip('0', rest, '1', '/');
      } else if s[0] == '/' {
        assert EscapeEach(s) == ['~', '1'] + rest;
        PairHit('1', rest, '/');
      } else {
        PairSkip(s[0], rest, '1', '/');
      }
    }
  }

  lemma {:induction false} DecodeTildes(s: string)
    ensures ReplacePair(ReplaceAll(s, '~', "~0"), '~', '0', '~') == s
  {
    if s != "" {
      DecodeTildes(s[1..]);
      var rest := ReplaceAll(s[1..], '~', "~0");
      if s[0] == '~' {
        assert ReplaceAll(s, '~', "~0") == ['~', '0'] + rest;
        PairHit('0', rest, '~');
      } else {
        PairSkip(s[0], rest, '0', '~');
      }
      assert s == [s[0]] + s[1..];
    }
  }

  /** Decoding gives back every label key. */
  lemma RoundTrip(s: string)
    ensures Decode(JsonPatchEscape(s)) == s
  {
    EscapeIsOnePass(s);
    DecodeSlashes(s);
    DecodeTildes(s);
  }

  /** Distinct keys have distinct pointers. */
  lemma EscapeInjective(s: string, t: string)
    requires JsonPatchEscape(s) == JsonPatchEscape(t)
    ensures s == t
  {
    RoundTrip(s);
    RoundTrip(t);
  }

  /** The order of the passes matters, when escaping and when decoding: swapped passes
      turn the key "/" into "~1", and the key "~1" into "/". */
  lemma OrderOfPassesMatters()
    ensures Decode(ReplaceAll(ReplaceAll("/", '/', "~1"), '~', "~0")) == "~1"
    ensures ReplacePair(ReplacePair(JsonPatchEscape("~1"), '~', '0', '~'), '~', '1', '/') == "/"
  {
    assert ReplaceAll("/", '/', "~1") == "~1" by { assert "/"[1..] == ""; }
    assert "~1"[1..] == "1" && "1"[1..] == "";
    assert ReplaceAll("1", '~', "~0") == "1";
    assert ReplaceAll("~1", '~', "~0") == "~01";
    PairSkip('~', "01", '1', '/');
    PairSkip('0', "1", '1', '/');
    assert ['~'] + "01" == "~01" && ['0'] + "1" == "01";
    assert ReplacePair("~01", '~', '1', '/') == "~01";
    PairHit('0', "1", '~');
    assert ['~', '0'] + "1" == "~01" && ['~'] + "1" == "~1";
    assert JsonPatchEscape("~1") == "~01" by {
      EscapeIsOnePass("~1");
      assert EscapeEach("1") == "1";
    }
    PairHit('1', "", '/');
    assert ['~', '1'] + "" == "~1";
  }

  // -------------------------------------------------------------- label patches

  datatype LabelPatch = Add(token: string, value: string) | Remove(token: string)

  datatype Answer = Done | Invalid | Failed

  /** What one operation on /metadata/labels/<token> makes of the labels: "add" sets or replaces the
      member (RFC 6902, section 4.1); "remove" needs it to exist (section 4.2), or there is no result. */
  function Applied(labels: map<string, string>, patch: LabelPatch): Option<map<string, string>> {
    match patch
    case Add(token, value) => Some(labels[Decode(token) := value])
    case Remove(token) => if Decode(token) in labels then Some(labels - {Decode(token)}) else None
  }

  /** The labels afterwards and what the caller is told: an operation without result is refused as
      invalid, and a lost reply is an error whatever the server did. */
  function Serve(labels: map<string, string>, patch: LabelPatch, reply: Reply): (map<string, string>, Answer) {
    if reply.Refused? then (labels, Failed)
    else
      var l := Applied(labels, patch);
      (if l.Some? then l.value else labels, if reply.Lost? then Failed else if l.Some? then Done else Invalid)
  }

  /** setPodLabel: the labels afterwards, and whether it reports an error. */
  function SetPodLabel(labels: map<string, string>, key: string, value: string, reply: Reply)
    : (map<string, string>, bool)
  {
    var (after, answer) := Serve(labels, Add(JsonPatchEscape(key), value), reply);
    (after, answer != Done)
  }

  /** removePodLabel: a refusal as invalid means the label is absent, and counts as success. */
  function RemovePodLabel(labels: map<string, string>, key: string, reply: Reply): (map<string, string>, bool) {
    var (after, answer) := Serve(labels, Remove(JsonPatchEscape(key)), reply);
    (after, answer == Failed)
  }

  /** A label is set, and no other key touched, exactly when the call takes effect, which it may do
      and still report an error; trying again, however that call ends, changes nothing more. */
  lemma SetPodLabelMeaning(labels: map<string, string>, key: string, value: string, reply: Reply, again: Reply)
    ensures var (after, err) := SetPodLabel(labels, key, value, reply);
      && err == (reply != Served)
      && after == (if reply.TookEffect() then labels[key := value] else labels)
      && (reply.TookEffect() ==> SetPodLabel(after, key, value, again) == (after, again != Served))
  {
    RoundTrip(key);
    assert labels[key := value][key := value] == labels[key := value];
  }

  /** Removing a label reports success exactly when the call is served, whether or not the label was
      there; the key is absent afterwards, and no other touched, exactly when the call takes effect. */
  lemma RemovePodLabelMeaning(labels: map<string, string>, key: string, reply: Reply, again: Reply)
    ensures var (after, err) := RemovePodLabel(labels, key, reply);
      && err == (reply != Served)
      && after == (if reply.TookEffect() then labels - {key} else labels)
      && (reply.TookEffect() ==> key !in after && RemovePodLabel(after, key, again) == (after, again != Served))
  {
    RoundTrip(key);
  }
}
