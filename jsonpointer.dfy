/** The paths `makePatches` builds for calendar-event patches: JSON Pointers
    (RFC 6901) whose reference tokens are property names escaped as in
    section 3 of that RFC, `~` as `~0` and then `/` as `~1`. */
module JsonPointers {
  import opened Options

  /** `s.replace( /c/g, r )` for a one-character pattern. */
  function ReplaceAll(s: string, c: char, r: string): string {
    if s == [] then [] else (if s[0] == c then r else [s[0]]) + ReplaceAll(s[1..], c, r)
  }

  /** `key.replace( /~/g, '~0' ).replace( /\//g, '~1' )`. */
  function EscapeToken(key: string): string {
    ReplaceAll(ReplaceAll(key, '~', "~0"), '/', "~1")
  }

  /** The escape of one character, as section 3 of RFC 6901 states it. */
  function EscapeChar(c: char): string {
    if c == '~' then "~0" else if c == '/' then "~1" else [c]
  }

  /** The reference escaping: each character escaped on its own. */
  function EscapeEach(key: string): string {
    if key == [] then [] else EscapeChar(key[0]) + EscapeEach(key[1..])
  }

  /** A reference token read back, as section 4 of RFC 6901 states it: `~1`
      is `/`, `~0` is `~`; any other `~`, and any `/`, make it invalid. */
  function UnescapeToken(t: string): Option<string> {
    if t == [] then Some([])
    else if t[0] == '/' then None
    else if t[0] == '~' then
      if |t| >= 2 && (t[1] == '0' || t[1] == '1') then
        match UnescapeToken(t[2..])
        case None => None
        case Some(rest) => Some([if t[1] == '0' then '~' else '/'] + rest)
      else None
    else
      match UnescapeToken(t[1..])
      case None => None
      case Some(rest) => Some([t[0]] + rest)
  }

  /** `path + '/' + escaped key`: the path of a property below `path`. */
  function ChildPath(path: string, key: string): string {
    path + "/" + EscapeToken(key)
  }

  /** The path of the property reached by descending through `keys` in
      order from the root (the empty path): each key, escaped, after a
      `/`. */
  function PathOf(keys: seq<string>): string {
    if keys == [] then "" else "/" + EscapeToken(keys[0]) + PathOf(keys[1..])
  }

  /** The length of the reference token at the start of `p`: up to the next
      `/` or the end. */
  function TokenLength(p: string): (n: nat)
    ensures n <= |p|
  {
    if p == [] || p[0] == '/' then 0 else 1 + TokenLength(p[1..])
  }

  /** A JSON Pointer read as its sequence of unescaped reference tokens
      (section 4 of RFC 6901); `None` when it does not start with `/` or a
      token is invalid. */
  function ParsePointer(p: string): Option<seq<string>>
    decreases |p|
  {
    if p == [] then Some([])
    else if p[0] != '/' then None
    else
      var n := TokenLength(p[1..]);
      match UnescapeToken(p[1..][..n])
      case None => None
      case Some(key) =>
        match ParsePointer(p[1..][n..])
        case None => None
        case Some(keys) => Some([key] + keys)
  }

  lemma {:induction false} ReplaceAllAppend(a: string, b: string, c: char, r: string)
    ensures ReplaceAll(a + b, c, r) == ReplaceAll(a, c, r) + ReplaceAll(b, c, r)
  {
    if a != [] {
      var h := if a[0] == c then r else [a[0]];
      assert (a + b)[0] == a[0] && (a + b)[1..] == a[1..] + b;
      assert ReplaceAll(a, c, r) == h + ReplaceAll(a[1..], c, r);
      ReplaceAllAppend(a[1..], b, c, r);
      assert ReplaceAll(a + b, c, r) == h + (ReplaceAll(a[1..], c, r) + ReplaceAll(b, c, r));
      assert h + (ReplaceAll(a[1..], c, r) + ReplaceAll(b, c, r))
          == (h + ReplaceAll(a[1..], c, r)) + ReplaceAll(b, c, r);
    } else {
      assert a + b == b;
    }
  }

  /** The two passes of `replace` are the escaping of each character on its
      own: `~` is replaced first, so the `~` a `/` becomes is not escaped
      again. */
  lemma {:induction false} EscapeTokenEach(key: string)
    ensures EscapeToken(key) == EscapeEach(key)
  {
    if key != [] {
      var c := key[0];
      var first := if c == '~' then "~0" else [c];
      assert ReplaceAll(key, '~', "~0") == first + ReplaceAll(key[1..], '~', "~0");
      ReplaceAllAppend(first, ReplaceAll(key[1..], '~', "~0"), '/', "~1");
      if c == '~' {
        assert ReplaceAll(first, '/', "~1") == "~0" by {
          assert first[1..] == "0";
          assert ReplaceAll(first[1..], '/', "~1") == "0" + ReplaceAll([], '/', "~1");
        }
      } else {
        assert ReplaceAll(first, '/', "~1") == ReplaceAll([c], '/', "~1")
            == (if c == '/' then "~1" else [c]) + ReplaceAll([], '/', "~1");
      }
      EscapeTokenEach(key[1..]);
    }
  }

  /** An escaped token holds no `/`. */
  lemma {:induction false} EscapeHasNoSlash(key: string)
    ensures forall i :: 0 <= i < |EscapeEach(key)| ==> EscapeEach(key)[i] != '/'
  {
    if key != [] {
      EscapeHasNoSlash(key[1..]);
      var e := EscapeEach(key);
      var h := EscapeChar(key[0]);
      assert e == h + EscapeEach(key[1..]);
      forall i | 0 <= i < |e|
        ensures e[i] != '/'
      {
        if i >= |h| {
          assert e[i] == EscapeEach(key[1..])[i - |h|];
        }
      }
    }
  }

  /** Every escaped token reads back as the key it was made from. */
  lemma {:induction false} UnescapeEscape(key: string)
    ensures UnescapeToken(EscapeEach(key)) == Some(key)
  {
    if key != [] {
      var c := key[0];
      var rest := EscapeEach(key[1..]);
      UnescapeEscape(key[1..]);
      var t := EscapeChar(c) + rest;
      assert t == EscapeEach(key);
      if c == '~' || c == '/' {
        assert t[2..] == rest;
      } else {
        assert t[1..] == rest;
      }
      assert key == [c] + key[1..];
    }
  }

  /** So escaping is injective: no two property names share a path
      segment. */
  lemma EscapeTokenInjective(a: string, b: string)
    requires EscapeToken(a) == EscapeToken(b)
    ensures a == b
  {
    EscapedToken(a);
    EscapedToken(b);
  }

  /** Escaping `/` before `~`, the other order, would write `/` as `~01`,
      which reads back as `~1`. */
  lemma OtherOrderFails()
    ensures ReplaceAll(ReplaceAll("/", '/', "~1"), '~', "~0") == "~01"
    ensures EscapeToken("/") == "~1"
    ensures UnescapeToken("~01") == Some("~1")
  {
    assert ReplaceAll("/", '/', "~1") == "~1" + ReplaceAll([], '/', "~1");
    assert "~1"[1..] == "1";
    assert ReplaceAll("~1", '~', "~0") == "~0" + ReplaceAll("1", '~', "~0");
    assert "1"[1..] == [];
    EscapeTokenEach("/");
    assert "/"[1..] == [];
    assert "~01"[2..] == "1";
    assert UnescapeToken("1") == Some("1") by {
      assert "1"[0] == '1' && "1"[1..] == [];
      assert UnescapeToken([]) == Some([]);
      assert ['1'] + [] == "1";
    }
    assert "~01"[0] == '~' && "~01"[1] == '0' && ['~'] + "1" == "~1";
  }

  /** The token at the start of an escaped key followed by a `/` (or
      nothing) is the escaped key. */
  lemma {:induction false} TokenLengthOf(t: string, rest: string)
    requires forall i :: 0 <= i < |t| ==> t[i] != '/'
    requires rest == [] || rest[0] == '/'
    ensures TokenLength(t + rest) == |t|
  {
    if t != [] {
      assert (t + rest)[1..] == t[1..] + rest;
      TokenLengthOf(t[1..], rest);
    }
  }

  /** Each recursive call of `makePatches` extends the path by one key:
      starting from the empty path, it reaches `PathOf` of the keys it
      descended through. */
  lemma {:induction false} ChildPathExtends(keys: seq<string>, key: string)
    ensures ChildPath(PathOf(keys), key) == PathOf(keys + [key])
  {
    if keys == [] {
      assert [] + [key] == [key];
      assert PathOf([key]) == "/" + EscapeToken(key) + PathOf([]);
    } else {
      var head := "/" + EscapeToken(keys[0]);
      assert (keys + [key])[0] == keys[0] && (keys + [key])[1..] == keys[1..] + [key];
      ChildPathExtends(keys[1..], key);
      assert PathOf(keys + [key]) == head + PathOf(keys[1..] + [key]);
      assert ChildPath(PathOf(keys), key) == head + ChildPath(PathOf(keys[1..]), key);
    }
  }

  /** What the two passes of `replace` make of a key is a valid reference
      token, without `/`, that reads back as the key. */
  lemma EscapedToken(key: string)
    ensures forall i :: 0 <= i < |EscapeToken(key)| ==> EscapeToken(key)[i] != '/'
    ensures UnescapeToken(EscapeToken(key)) == Some(key)
  {
    EscapeTokenEach(key);
    EscapeHasNoSlash(key);
    UnescapeEscape(key);
  }

  /** One step of reading a pointer: a valid token without `/`, then the
      rest of the pointer. */
  lemma ParseStep(e: string, key: string, tail: string, keys: seq<string>)
    requires forall i :: 0 <= i < |e| ==> e[i] != '/'
    requires UnescapeToken(e) == Some(key)
    requires tail == [] || tail[0] == '/'
    requires ParsePointer(tail) == Some(keys)
    ensures ParsePointer("/" + e + tail) == Some([key] + keys)
  {
    var p := "/" + e + tail;
    assert p[1..] == e + tail;
    TokenLengthOf(e, tail);
    assert (e + tail)[..|e|] == e && (e + tail)[|e|..] == tail;
  }

  /** A path `makePatches` builds reads back, as a JSON Pointer, as the keys
      it descended through. */
  lemma {:induction false} ParsePathOf(keys: seq<string>)
    ensures ParsePointer(PathOf(keys)) == Some(keys)
  {
    if keys != [] {
      var tail := PathOf(keys[1..]);
      EscapedToken(keys[0]);
      ParsePathOf(keys[1..]);
      ParseStep(EscapeToken(keys[0]), keys[0], tail, keys[1..]);
      assert keys == [keys[0]] + keys[1..];
    }
  }

  /** Two key sequences reach the same path only when they are the same:
      patches to different properties never collide. */
  lemma PathOfInjective(a: seq<string>, b: seq<string>)
    requires PathOf(a) == PathOf(b)
    ensures a == b
  {
    ParsePathOf(a);
    ParsePathOf(b);
  }
}
