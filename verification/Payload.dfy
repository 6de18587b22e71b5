/** JSON answers of the identity providers: what is stripped from them, and which may be kept. */
module Payload {
  /** `Fraction` is any number that is not a whole one; it is never zero. */
  datatype Json =
    | Null
    | Flag(flag: bool)
    | Whole(number: int)
    | Fraction
    | Str(text: string)
    | Arr(items: seq<Json>)
    | Obj(members: map<string, Json>)

  predicate Truthy(j: Json) {
    match j
    case Null => false
    case Flag(b) => b
    case Whole(n) => n != 0
    case Fraction => true
    case Str(s) => s != ""
    case Arr(items) => items != []
    case Obj(m) => m != map[]
  }

  function Get(j: Json, key: string): Json {
    if j.Obj? && key in j.members then j.members[key] else Null
  }

  function Or(a: Json, b: Json): Json { if Truthy(a) then a else b }

  function LowerChar(c: char): char { if 'A' <= c <= 'Z' then c - 'A' + 'a' else c }

  function Lower(s: string): (r: string)
    ensures |r| == |s|
  {
    seq(|s|, i requires 0 <= i < |s| => LowerChar(s[i]))
  }

  predicate Blank(c: char) { c == ' ' || '\t' <= c <= '\r' }

  function Strip(s: string): string {
    if s == "" then ""
    else if Blank(s[0]) then Strip(s[1..])
    else if Blank(s[|s| - 1]) then Strip(s[..|s| - 1])
    else s
  }

  /** A value that, as trimmed text in lower case, is empty or one of the words. No other JSON value spells
      one of these words, except the whole number 200. */
  predicate EmptyOr(j: Json, words: set<string>) {
    !Truthy(j)
    || (j.Str? && (Lower(Strip(j.text)) == "" || Lower(Strip(j.text)) in words))
    || (j == Whole(200) && "200" in words)
  }

  // ---- Dikript ----

  const DIKRIPT_DROPS: set<string> := {"photo", "signature"}

  function DikriptClean(j: Json): Json {
    if !j.Obj? then Obj(map[])
    else
      var data := Get(j, "data");
      if data.Obj? then Obj(j.members["data" := Obj(data.members - DIKRIPT_DROPS)]) else j
  }

  predicate DikriptReusable(j: Json) {
    Truthy(Get(j, "status")) && Get(j, "data").Obj? && Get(j, "data").members != map[]
  }

  /** After cleaning, an answer is kept exactly when its status holds and its data name something besides
      the picture and the signature. */
  lemma DikriptKeeps(j: Json)
    ensures DikriptReusable(DikriptClean(j)) <==>
              Truthy(Get(j, "status")) && Get(j, "data").Obj?
              && exists key :: key in Get(j, "data").members && key !in DIKRIPT_DROPS
  {
    var data := Get(j, "data");
    if data.Obj? {
      var rest := data.members - DIKRIPT_DROPS;
      assert rest != map[] <==> exists key :: key in rest;
      assert forall key :: key in rest <==> key in data.members && key !in DIKRIPT_DROPS;
    }
  }

  // ---- Prembly ----

  /** Decoding turns any reply that is not an object into an empty one. */
  function Decoded(j: Json): Json { if j.Obj? then j else Obj(map[]) }

  const PREMBLY_DROPS: set<string> := {"photo", "signature", "base64image", "image"}

  predicate Dropped(key: string) { Lower(key) in PREMBLY_DROPS }

  function PremblyClean(j: Json): Json {
    match j
    case Obj(m) => Obj(map key | key in m && !Dropped(key) :: PremblyClean(m[key]))
    case Arr(items) => Arr(seq(|items|, i requires 0 <= i < |items| => PremblyClean(items[i])))
    case _ => j
  }

  /** No dropped key at any depth. */
  predicate Clean(j: Json) {
    match j
    case Obj(m) => forall key :: key in m ==> !Dropped(key) && Clean(m[key])
    case Arr(items) => forall i :: 0 <= i < |items| ==> Clean(items[i])
    case _ => true
  }

  predicate PremblyVerified(j: Json) {
    && Get(j, "status") == Flag(true)
    && EmptyOr(Or(Get(j, "response_code"), Get(j, "code")), {"00", "200"})
    && EmptyOr(Get(j, "verification_status"), {"verified"})
    && EmptyOr(Get(Get(j, "verification"), "status"), {"verified"})
  }

  predicate PremblyReusable(j: Json) {
    var data := Get(j, "data");
    PremblyVerified(j) && (data.Obj? || data.Arr?) && Truthy(data)
  }

  lemma {:induction false} PremblyCleanIsClean(j: Json)
    ensures Clean(PremblyClean(j))
  {
    match j
    case Obj(m) => forall key | key in m ensures Clean(PremblyClean(m[key])) { PremblyCleanIsClean(m[key]); }
    case Arr(items) =>
      forall i | 0 <= i < |items| ensures Clean(PremblyClean(items[i])) { PremblyCleanIsClean(items[i]); }
    case _ =>
  }

  /** Cleaning changes an answer exactly when something in it is to be dropped; so twice is once. */
  lemma {:induction false} PremblyCleanFixes(j: Json)
    ensures PremblyClean(j) == j <==> Clean(j)
  {
    match j
    case Obj(m) =>
      var c := PremblyClean(j).members;
      forall key | key in m ensures PremblyClean(m[key]) == m[key] <==> Clean(m[key]) { PremblyCleanFixes(m[key]); }
      if Clean(j) {
        assert c.Keys == m.Keys;
        assert c == m;
      } else {
        var key :| key in m && (Dropped(key) || !Clean(m[key]));
        assert key in c ==> c[key] == PremblyClean(m[key]);
      }
    case Arr(items) =>
      forall i | 0 <= i < |items| ensures PremblyClean(items[i]) == items[i] <==> Clean(items[i]) {
        PremblyCleanFixes(items[i]);
      }
      if Clean(j) {
        assert PremblyClean(j).items == items;
      } else {
        var i :| 0 <= i < |items| && !Clean(items[i]);
        assert PremblyClean(j).items[i] == PremblyClean(items[i]);
      }
    case _ =>
  }

  lemma PremblyCleanTwice(j: Json)
    ensures PremblyClean(PremblyClean(j)) == PremblyClean(j)
  {
    PremblyCleanIsClean(j);
    PremblyCleanFixes(PremblyClean(j));
  }

  // ---- What survives cleaning, and what is accepted ----

  /** The rest of a Dikript answer stays: every member but the data, and of the data every member but the
      picture and the signature. Anything but an object becomes an empty one. */
  lemma DikriptCleanKeeps(j: Json)
    ensures var c := DikriptClean(j);
      && c.Obj? && (!j.Obj? ==> c.members == map[])
      && (j.Obj? ==>
            && c.members.Keys == j.members.Keys
            && (forall key :: key in j.members && key != "data" ==> c.members[key] == j.members[key])
            && ("data" in j.members && !j.members["data"].Obj? ==> c == j)
            && ("data" in j.members && j.members["data"].Obj? ==>
                  && c.members["data"].Obj?
                  && (forall key :: key in c.members["data"].members <==>
                        key in j.members["data"].members && key != "photo" && key != "signature")
                  && (forall key :: key in c.members["data"].members ==>
                        c.members["data"].members[key] == j.members["data"].members[key])))
  {
  }

  datatype Place = Key(key: string) | Index(index: nat)

  /** The value at the end of a path of keys and indices. */
  function Find(j: Json, path: seq<Place>): (r: seq<Json>)
    ensures |r| <= 1
  {
    if path == [] then [j]
    else match path[0]
      case Key(key) => if j.Obj? && key in j.members then Find(j.members[key], path[1..]) else []
      case Index(i) => if j.Arr? && i < |j.items| then Find(j.items[i], path[1..]) else []
  }

  /** A key to be dropped, in any mix of capitals. */
  predicate Named(p: Place) { p.Key? && Lower(p.key) in {"photo", "signature", "base64image", "image"} }

  /** A path through such a key. */
  predicate ThroughDropped(path: seq<Place>) {
    exists n :: 0 <= n < |path| && Named(path[n])
  }

  /** What lies behind a dropped key is gone; at every other path an answer holds just what it held, cleaned. */
  lemma {:induction false} PremblyCleanKeeps(j: Json, path: seq<Place>)
    ensures ThroughDropped(path) ==> Find(PremblyClean(j), path) == []
    ensures !ThroughDropped(path) ==>
              && |Find(PremblyClean(j), path)| == |Find(j, path)|
              && (Find(j, path) != [] ==> Find(PremblyClean(j), path) == [PremblyClean(Find(j, path)[0])])
    decreases path
  {
    if path != [] {
      var rest := path[1..];
      assert ThroughDropped(path) <==> (path[0].Key? && Dropped(path[0].key)) || ThroughDropped(rest) by {
        if ThroughDropped(path) {
          var n :| 0 <= n < |path| && Named(path[n]);
          assert n > 0 ==> rest[n - 1] == path[n];
        }
        if ThroughDropped(rest) {
          var n :| 0 <= n < |rest| && Named(rest[n]);
          assert path[n + 1] == rest[n];
        }
      }
      match path[0]
      case Key(key) =>
        if j.Obj? && key in j.members {
          PremblyCleanKeeps(j.members[key], rest);
          if !Dropped(key) { assert PremblyClean(j).members[key] == PremblyClean(j.members[key]); }
        }
      case Index(i) =>
        if j.Arr? && i < |j.items| {
          PremblyCleanKeeps(j.items[i], rest);
          assert PremblyClean(j).items[i] == PremblyClean(j.items[i]);
        }
    }
  }

  /** A number, a text, a truth value or nothing is its own cleaning. */
  lemma ScalarsStay(j: Json)
    requires !j.Obj? && !j.Arr?
    ensures PremblyClean(j) == j
  {
  }

  /** Lower case changes exactly the capital Latin letters, and two texts agree in it letter by letter. */
  lemma LowerExactly(s: string, i: nat)
    requires i < |s|
    ensures 'a' <= s[i] <= 'z' ==> Lower(s)[i] == s[i]
    ensures 'A' <= s[i] <= 'Z' ==> Lower(s)[i] as int == s[i] as int + 32
    ensures !('A' <= s[i] <= 'Z') ==> Lower(s)[i] == s[i]
  {
  }

  /** Only blanks stand before `a` and from `b` on. */
  ghost predicate BlankOutside(s: string, a: nat, b: nat)
    requires a <= b <= |s|
  {
    forall i :: 0 <= i < a || b <= i < |s| ==> Blank(s[i])
  }

  lemma NothingOutside(s: string)
    ensures BlankOutside(s, 0, |s|)
  {
  }

  lemma BlankInFront(s: string, a: nat, b: nat)
    requires s != "" && Blank(s[0]) && a <= b < |s| && BlankOutside(s[1..], a, b)
    ensures BlankOutside(s, a + 1, b + 1) && s[a + 1..b + 1] == s[1..][a..b]
  {
    var t := s[1..];
    forall i | 0 <= i < a + 1 || b + 1 <= i < |s| ensures Blank(s[i]) { if i > 0 { assert t[i - 1] == s[i]; } }
    assert forall k :: 0 <= k < b - a ==> s[a + 1..b + 1][k] == t[a..b][k];
  }

  lemma BlankBehind(s: string, a: nat, b: nat)
    requires s != "" && Blank(s[|s| - 1]) && a <= b < |s| && BlankOutside(s[..|s| - 1], a, b)
    ensures BlankOutside(s, a, b) && s[a..b] == s[..|s| - 1][a..b]
  {
    var t := s[..|s| - 1];
    forall i | 0 <= i < a || b <= i < |s| ensures Blank(s[i]) { if i < |t| { assert t[i] == s[i]; } }
  }

  lemma BlankExactly(c: char)
    ensures Blank(c) <==> c in {' ', '\t', '\n', '\U{000B}', '\U{000C}', '\r'}
  {
  }

  /** Trimming leaves the text between its first and last visible characters. */
  lemma {:induction false} StripExactly(s: string)
    ensures Strip(s) != "" ==> !Blank(Strip(s)[0]) && !Blank(Strip(s)[|Strip(s)| - 1])
    ensures exists a: nat, b: nat :: a <= b <= |s| && BlankOutside(s, a, b) && s[a..b] == Strip(s)
    decreases |s|
  {
    hide Blank, BlankOutside;
    NothingOutside(s);
    assert s[0..|s|] == s;
    if s == "" {
    } else if Blank(s[0]) {
      StripExactly(s[1..]);
      var a: nat, b: nat :| a <= b < |s| && BlankOutside(s[1..], a, b) && s[1..][a..b] == Strip(s[1..]);
      BlankInFront(s, a, b);
    } else if Blank(s[|s| - 1]) {
      StripExactly(s[..|s| - 1]);
      var a: nat, b: nat :| a <= b < |s| && BlankOutside(s[..|s| - 1], a, b)
                            && s[..|s| - 1][a..b] == Strip(s[..|s| - 1]);
      BlankBehind(s, a, b);
    }
  }

  /** A field that says something: not absent, null, false, zero or empty. */
  predicate Says(j: Json, key: string) {
    var v := Get(j, key);
    !(v == Null || v == Flag(false) || v == Whole(0) || v == Str("") || v == Arr([]) || v == Obj(map[]))
  }

  /** The text of a field, trimmed and in lower case, or 200 written as a number. */
  predicate Reads(v: Json, word: string) { v.Str? && Lower(Strip(v.text)) == word }

  /** Which Prembly answers are reusable: status true; a code, if any, of 00 or 200; a verification status and a
      status of the verification, if any, "verified"; and data that hold something. */
  lemma PremblyReusableExactly(j: Json)
    ensures PremblyReusable(j) <==>
      && j.Obj? && "status" in j.members && j.members["status"] == Flag(true)
      && (var code := if Says(j, "response_code") then Get(j, "response_code") else Get(j, "code");
          (Says(j, "response_code") || Says(j, "code")) ==>
            code == Whole(200) || Reads(code, "00") || Reads(code, "200") || Reads(code, ""))
      && (Says(j, "verification_status") ==>
            Reads(Get(j, "verification_status"), "verified") || Reads(Get(j, "verification_status"), ""))
      && (Says(Get(j, "verification"), "status") ==>
            var status := Get(Get(j, "verification"), "status");
            Reads(status, "verified") || Reads(status, ""))
      && Says(j, "data") && (Get(j, "data").Obj? || Get(j, "data").Arr?)
  {
    hide Strip, Lower;
    forall k: Json, key: string ensures Says(k, key) <==> Truthy(Get(k, key)) { }
  }

  lemma DikriptReusableExactly(j: Json)
    ensures DikriptReusable(j) <==> Says(j, "status") && Get(j, "data").Obj? && Says(j, "data")
  {
  }
}
