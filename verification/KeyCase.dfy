/** Conversion of object keys between snake_case and camelCase
    (frontend/src/lib/utils/case.ts). */
module KeyCase {
  import opened Decimals

  predicate IsLower(c: char) { 'a' <= c <= 'z' }

  predicate IsUpper(c: char) { 'A' <= c <= 'Z' }

  function Upper(c: char): char {
    if IsLower(c) then c - 'a' + 'A' else c
  }

  function Lower(c: char): char {
    if IsUpper(c) then c - 'A' + 'a' else c
  }

  /** An underscore with the letter or digit that the pattern `_([a-z0-9])` takes. */
  predicate StartsPair(s: string) {
    |s| >= 2 && s[0] == '_' && (IsLower(s[1]) || IsDigit(s[1]))
  }

  function Camel(s: string): string {
    if s == "" then ""
    else if StartsPair(s) then [Upper(s[1])] + Camel(s[2..])
    else [s[0]] + Camel(s[1..])
  }

  function Snake(s: string): string {
    if s == "" then ""
    else (if IsUpper(s[0]) then ['_', Lower(s[0])] else [s[0]]) + Snake(s[1..])
  }

  /** No underscore is followed by a lower-case letter or a digit. */
  predicate SurvivesSnake(s: string) {
    forall i :: 0 <= i < |s| - 1 && s[i] == '_' ==> !IsLower(s[i + 1]) && !IsDigit(s[i + 1])
  }

  /** No capital, and no underscore before a digit. */
  predicate SurvivesCamel(s: string) {
    && (forall i :: 0 <= i < |s| ==> !IsUpper(s[i]))
    && (forall i :: 0 <= i < |s| - 1 && s[i] == '_' ==> !IsDigit(s[i + 1]))
  }

  /** Through snake case and back is the identity exactly on these keys. */
  lemma {:induction false} CamelOfSnake(s: string)
    ensures Camel(Snake(s)) == s <==> SurvivesSnake(s)
  {
    if s != "" {
      CamelOfSnake(s[1..]);
      hide SurvivesSnake;
      if IsUpper(s[0]) { CapitalComesBack(s); } else { PlainComesBack(s); }
    }
  }

  lemma {:induction false} CapitalComesBack(s: string)
    requires s != "" && IsUpper(s[0])
    ensures Camel(Snake(s)) == [s[0]] + Camel(Snake(s[1..])) && !StartsPair(s)
    ensures Camel(Snake(s)) == s <==> Camel(Snake(s[1..])) == s[1..]
  {
    hide Camel, Snake;
    CapitalPair(s);
    assert s == [s[0]] + s[1..];
    SameHead(s[0], Camel(Snake(s[1..])), s[1..]);
  }

  lemma {:induction false} CapitalPair(s: string)
    requires s != "" && IsUpper(s[0])
    ensures Camel(Snake(s)) == [s[0]] + Camel(Snake(s[1..]))
  {
    var t := Snake(s);
    assert t == ['_', Lower(s[0])] + Snake(s[1..]);
    assert t[2..] == Snake(s[1..]) && StartsPair(t) && Upper(t[1]) == s[0];
  }

  lemma SameHead(c: char, x: string, y: string)
    ensures [c] + x == [c] + y <==> x == y
  {
    assert ([c] + x)[1..] == x && ([c] + y)[1..] == y;
  }

  lemma {:induction false} PlainComesBack(s: string)
    requires s != "" && !IsUpper(s[0])
    ensures Camel(Snake(s)) == s <==> Camel(Snake(s[1..])) == s[1..] && !StartsPair(s)
  {
    var t := Snake(s);
    if StartsPair(t) {
      PairHead(t);
    } else {
      hide Camel, Snake, StartsPair;
    }
  }

  lemma {:induction false} PairHead(t: string)
    requires StartsPair(t)
    ensures Camel(t) != "" && Camel(t)[0] != '_'
  {
  }

  /** Through camel case and back is the identity exactly on these keys. */
  lemma {:induction false} SnakeOfCamel(s: string)
    ensures Snake(Camel(s)) == s <==> SurvivesCamel(s)
  {
    if s != "" {
      if StartsPair(s) {
        SnakeOfCamel(s[2..]);
        hide SurvivesCamel;
        PairComesBack(s);
      } else {
        SnakeOfCamel(s[1..]);
        hide SurvivesCamel;
      }
    }
  }

  lemma {:induction false} PairComesBack(s: string)
    requires StartsPair(s)
    ensures Snake(Camel(s)) == s <==> Snake(Camel(s[2..])) == s[2..] && !IsDigit(s[1])
    ensures s[1..][1..] == s[2..] && s[1..][0] != '_' && !IsUpper(s[1..][0]) && !IsUpper(s[0])
  {
    var t := Camel(s);
    assert t == [Upper(s[1])] + Camel(s[2..]) && t[1..] == Camel(s[2..]);
    if IsLower(s[1]) {
      assert Snake(t) == ['_', s[1]] + Snake(Camel(s[2..]));
      assert s == ['_', s[1]] + s[2..];
      assert Snake(t)[2..] == Snake(Camel(s[2..]));
    } else {
      assert Snake(t)[0] == s[1];
    }
  }

  // ---- Trees ----

  /** A JSON value; `Scalar` stands for everything that is passed through. */
  datatype Json = Scalar(text: string) | Arr(items: seq<Json>) | Obj(fields: seq<Field>)

  datatype Field = Field(key: string, value: Json)

  /** `result[key] = value`: an existing key keeps its place. */
  function Put(fields: seq<Field>, key: string, value: Json): seq<Field> {
    if fields == [] then [Field(key, value)]
    else if fields[0].key == key then [Field(key, value)] + fields[1..]
    else [fields[0]] + Put(fields[1..], key, value)
  }

  function Convert(t: Json, f: string -> string): Json
    decreases t
  {
    match t
    case Scalar(_) => t
    case Arr(items) => Arr(ConvertItems(items, f))
    case Obj(fields) => Obj(ConvertFields(fields, f))
  }

  function ConvertItems(items: seq<Json>, f: string -> string): (r: seq<Json>)
    ensures |r| == |items|
    decreases items
  {
    if items == [] then [] else ConvertItems(items[..|items| - 1], f) + [Convert(items[|items| - 1], f)]
  }

  function ConvertFields(fields: seq<Field>, f: string -> string): seq<Field>
    decreases fields
  {
    if fields == [] then []
    else
      var last := fields[|fields| - 1];
      Put(ConvertFields(fields[..|fields| - 1], f), f(last.key), Convert(last.value, f))
  }

  method KeysToCamel(t: Json) returns (r: Json)
    ensures r == Convert(t, Camel)
    decreases t
  {
    match t
    case Scalar(_) => r := t;
    case Arr(items) =>
      var out := [];
      for i := 0 to |items|
        invariant out == ConvertItems(items[..i], Camel)
      {
        var v := KeysToCamel(items[i]);
        out := out + [v];
        assert items[..i + 1][..i] == items[..i];
      }
      assert items[..|items|] == items;
      r := Arr(out);
    case Obj(fields) =>
      var result := [];
      for i := 0 to |fields|
        invariant result == ConvertFields(fields[..i], Camel)
      {
        var v := KeysToCamel(fields[i].value);
        result := Put(result, Camel(fields[i].key), v);
        assert fields[..i + 1][..i] == fields[..i];
      }
      assert fields[..|fields|] == fields;
      r := Obj(result);
  }

  method KeysToSnake(t: Json) returns (r: Json)
    ensures r == Convert(t, Snake)
    decreases t
  {
    match t
    case Scalar(_) => r := t;
    case Arr(items) =>
      var out := [];
      for i := 0 to |items|
        invariant out == ConvertItems(items[..i], Snake)
      {
        var v := KeysToSnake(items[i]);
        out := out + [v];
        assert items[..i + 1][..i] == items[..i];
      }
      assert items[..|items|] == items;
      r := Arr(out);
    case Obj(fields) =>
      var result := [];
      for i := 0 to |fields|
        invariant result == ConvertFields(fields[..i], Snake)
      {
        var v := KeysToSnake(fields[i].value);
        result := Put(result, Snake(fields[i].key), v);
        assert fields[..i + 1][..i] == fields[..i];
      }
      assert fields[..|fields|] == fields;
      r := Obj(result);
  }

  // ---- Siblings ----

  ghost predicate DistinctKeys(fields: seq<Field>) {
    forall i, j :: 0 <= i < j < |fields| ==> fields[i].key != fields[j].key
  }

  /** No two siblings get the same key. */
  ghost predicate DistinctImages(fields: seq<Field>, f: string -> string) {
    forall i, j :: 0 <= i < j < |fields| ==> f(fields[i].key) != f(fields[j].key)
  }

  ghost predicate HasKey(fields: seq<Field>, key: string) {
    exists i :: 0 <= i < |fields| && fields[i].key == key
  }

  lemma {:induction false} PutSize(fields: seq<Field>, key: string, value: Json)
    ensures if HasKey(fields, key) then |Put(fields, key, value)| == |fields| else Put(fields, key, value) == fields + [Field(key, value)]
  {
    hide HasKey;
    if fields == [] {
      NoKeys(key);
    } else {
      PutSize(fields[1..], key, value);
      HasKeyTail(fields, key);
      assert fields == [fields[0]] + fields[1..];
    }
  }

  lemma NoKeys(key: string)
    ensures !HasKey([], key)
  {
  }

  lemma HasKeyTail(fields: seq<Field>, key: string)
    requires fields != []
    ensures HasKey(fields, key) <==> fields[0].key == key || HasKey(fields[1..], key)
  {
    var rest := fields[1..];
    if i :| 0 <= i < |rest| && rest[i].key == key { assert fields[i + 1].key == key; }
    if HasKey(fields, key) && fields[0].key != key {
      var i :| 0 <= i < |fields| && fields[i].key == key;
      assert rest[i - 1].key == key;
    }
  }

  /** Each field converted in its place. */
  ghost predicate Pointwise(fields: seq<Field>, f: string -> string) {
    var r := ConvertFields(fields, f);
    |r| == |fields| && forall i :: 0 <= i < |r| ==> r[i] == Field(f(fields[i].key), Convert(fields[i].value, f))
  }

  lemma HasKeyLast(r: seq<Field>, fields: seq<Field>, f: string -> string, key: string)
    requires |r| == |fields| && forall i :: 0 <= i < |r| ==> r[i].key == f(fields[i].key)
    ensures HasKey(r, key) <==> exists i :: 0 <= i < |fields| && f(fields[i].key) == key
  {
    if i :| 0 <= i < |fields| && f(fields[i].key) == key { assert r[i].key == key; }
  }

  /** No field is lost exactly when no two siblings collide; then each keeps its place. */
  lemma {:induction false} NothingLostIffNoCollision(fields: seq<Field>, f: string -> string)
    ensures |ConvertFields(fields, f)| <= |fields|
    ensures |ConvertFields(fields, f)| == |fields| <==> DistinctImages(fields, f)
    ensures DistinctImages(fields, f) ==> Pointwise(fields, f)
  {
    hide DistinctImages, HasKey, ConvertFields, Pointwise;
    if fields == [] {
      NoFields(f);
    } else {
      var n := |fields| - 1;
      NothingLostIffNoCollision(fields[..n], f);
      ConvertLast(fields, f);
      PutSize(ConvertFields(fields[..n], f), f(fields[n].key), Convert(fields[n].value, f));
      PrefixImages(fields, f);
      if DistinctImages(fields[..n], f) { OneMoreField(fields, f); }
    }
  }

  lemma NoFields(f: string -> string)
    ensures ConvertFields([], f) == [] && DistinctImages([], f) && Pointwise([], f)
  {
  }

  lemma {:induction false} ConvertLast(fields: seq<Field>, f: string -> string)
    requires fields != []
    ensures var n := |fields| - 1;
      ConvertFields(fields, f) == Put(ConvertFields(fields[..n], f), f(fields[n].key), Convert(fields[n].value, f))
  {
  }

  lemma OneMoreField(fields: seq<Field>, f: string -> string)
    requires fields != [] && DistinctImages(fields[..|fields| - 1], f)
      && Pointwise(fields[..|fields| - 1], f)
    ensures var n := |fields| - 1;
      HasKey(ConvertFields(fields[..n], f), f(fields[n].key)) <==> !DistinctImages(fields, f)
    ensures DistinctImages(fields, f) ==> Pointwise(fields, f)
  {
    hide DistinctImages, Convert, ConvertFields, HasKey;
    var n := |fields| - 1;
    var r := ConvertFields(fields[..n], f);
    HasKeyLast(r, fields[..n], f, f(fields[n].key));
    LastImage(fields, f);
    ConvertLast(fields, f);
    PutSize(r, f(fields[n].key), Convert(fields[n].value, f));
  }

  lemma LastImage(fields: seq<Field>, f: string -> string)
    requires fields != [] && DistinctImages(fields[..|fields| - 1], f)
    ensures var n := |fields| - 1;
      DistinctImages(fields, f) <==> !exists i :: 0 <= i < |fields[..n]| && f(fields[..n][i].key) == f(fields[n].key)
  {
    var n := |fields| - 1;
    if !exists i :: 0 <= i < |fields[..n]| && f(fields[..n][i].key) == f(fields[n].key) {
      forall i, j | 0 <= i < j < |fields| ensures f(fields[i].key) != f(fields[j].key) {
        assert fields[..n][i] == fields[i];
        if j < n { assert fields[..n][j] == fields[j]; }
      }
    } else {
      var i :| 0 <= i < n && f(fields[..n][i].key) == f(fields[n].key);
      assert fields[..n][i] == fields[i];
    }
  }

  lemma PrefixImages(fields: seq<Field>, f: string -> string)
    requires fields != []
    ensures DistinctImages(fields, f) ==> DistinctImages(fields[..|fields| - 1], f)
  {
  }

  // ---- Round trips on whole trees ----

  /** In every object the keys are distinct. */
  ghost predicate WellFormed(t: Json) {
    match t
    case Scalar(_) => true
    case Arr(items) => forall i :: 0 <= i < |items| ==> WellFormed(items[i])
    case Obj(fields) => DistinctKeys(fields) && forall i :: 0 <= i < |fields| ==> WellFormed(fields[i].value)
  }

  ghost predicate AllKeys(t: Json, ok: string -> bool) {
    match t
    case Scalar(_) => true
    case Arr(items) => forall i :: 0 <= i < |items| ==> AllKeys(items[i], ok)
    case Obj(fields) => forall i :: 0 <= i < |fields| ==> ok(fields[i].key) && AllKeys(fields[i].value, ok)
  }

  /** Exactly the keys in `ok` come back from `f` by `g`. */
  ghost predicate ComesBack(f: string -> string, g: string -> string, ok: string -> bool) {
    forall s :: g(f(s)) == s <==> ok(s)
  }

  lemma {:induction false} ItemsPointwise(items: seq<Json>, f: string -> string)
    ensures forall i :: 0 <= i < |items| ==> ConvertItems(items, f)[i] == Convert(items[i], f)
  {
    if items != [] { ItemsPointwise(items[..|items| - 1], f); }
  }

  /** A tree of well-formed objects comes back from `f` by `g` exactly when every key does. */
  lemma {:induction false} TreeComesBack(t: Json, f: string -> string, g: string -> string, ok: string -> bool)
    requires WellFormed(t) && ComesBack(f, g, ok)
    ensures Convert(Convert(t, f), g) == t <==> AllKeys(t, ok)
    decreases t
  {
    match t
    case Scalar(_) =>
    case Arr(items) =>
      forall i | 0 <= i < |items| ensures Convert(Convert(items[i], f), g) == items[i] <==> AllKeys(items[i], ok) {
        TreeComesBack(items[i], f, g, ok);
      }
      ItemsPointwise(items, f);
      ItemsPointwise(ConvertItems(items, f), g);
    case Obj(fields) =>
      forall i | 0 <= i < |fields| ensures Convert(Convert(fields[i].value, f), g) == fields[i].value <==> AllKeys(fields[i].value, ok) {
        TreeComesBack(fields[i].value, f, g, ok);
      }
      FieldsComeBack(fields, f, g, ok);
  }

  lemma {:induction false} FieldsComeBack(fields: seq<Field>, f: string -> string, g: string -> string, ok: string -> bool)
    requires DistinctKeys(fields) && ComesBack(f, g, ok)
    requires forall i :: 0 <= i < |fields| ==> (Convert(Convert(fields[i].value, f), g) == fields[i].value <==> AllKeys(fields[i].value, ok))
    ensures ConvertFields(ConvertFields(fields, f), g) == fields <==>
      forall i :: 0 <= i < |fields| ==> ok(fields[i].key) && AllKeys(fields[i].value, ok)
  {
    hide Convert, ConvertFields, AllKeys, DistinctKeys, ComesBack, DistinctImages, Pointwise;
    var mid := ConvertFields(fields, f);
    NothingLostIffNoCollision(fields, f);
    NothingLostIffNoCollision(mid, g);
    if DistinctImages(fields, f) && DistinctImages(mid, g) {
      PointwiseBack(fields, f, g, ok);
    } else {
      if forall i :: 0 <= i < |fields| ==> ok(fields[i].key) { KeysStayDistinct(fields, f, g, ok); }
    }
  }

  lemma {:induction false} PointwiseBack(fields: seq<Field>, f: string -> string, g: string -> string, ok: string -> bool)
    requires ComesBack(f, g, ok) && Pointwise(fields, f)
      && Pointwise(ConvertFields(fields, f), g)
    requires forall i :: 0 <= i < |fields| ==> (Convert(Convert(fields[i].value, f), g) == fields[i].value <==> AllKeys(fields[i].value, ok))
    ensures ConvertFields(ConvertFields(fields, f), g) == fields <==>
      forall i :: 0 <= i < |fields| ==> ok(fields[i].key) && AllKeys(fields[i].value, ok)
  {
    hide Convert, ConvertFields, AllKeys;
    var mid := ConvertFields(fields, f);
    var r := ConvertFields(mid, g);
    forall i | 0 <= i < |fields| ensures r[i] == fields[i] <==> ok(fields[i].key) && AllKeys(fields[i].value, ok) {
      assert mid[i] == Field(f(fields[i].key), Convert(fields[i].value, f));
      assert r[i] == Field(g(mid[i].key), Convert(mid[i].value, g));
    }
  }

  /** Keys that come back cannot collide on the way. */
  lemma {:induction false} KeysStayDistinct(fields: seq<Field>, f: string -> string, g: string -> string, ok: string -> bool)
    requires DistinctKeys(fields) && ComesBack(f, g, ok)
      && forall i :: 0 <= i < |fields| ==> ok(fields[i].key)
    ensures DistinctImages(fields, f) && DistinctImages(ConvertFields(fields, f), g)
  {
    hide Convert, ConvertFields;
    forall i, j | 0 <= i < j < |fields| ensures f(fields[i].key) != f(fields[j].key) {
      assert g(f(fields[i].key)) == fields[i].key && g(f(fields[j].key)) == fields[j].key;
    }
    NothingLostIffNoCollision(fields, f);
    var mid := ConvertFields(fields, f);
    forall i, j | 0 <= i < j < |mid| ensures g(mid[i].key) != g(mid[j].key) {
      assert mid[i].key == f(fields[i].key) && mid[j].key == f(fields[j].key);
    }
  }

  /** To snake case and back: exactly the trees whose keys have no underscore before a
      lower-case letter or digit. */
  lemma {:induction false} CamelOfSnakeTree(t: Json)
    requires WellFormed(t)
    ensures Convert(Convert(t, Snake), Camel) == t <==> AllKeys(t, SurvivesSnake)
  {
    forall s ensures Camel(Snake(s)) == s <==> SurvivesSnake(s) { CamelOfSnake(s); }
    TreeComesBack(t, Snake, Camel, SurvivesSnake);
  }

  /** To camel case and back: exactly the trees whose keys have no ASCII capital and no
      underscore before a digit. */
  lemma {:induction false} SnakeOfCamelTree(t: Json)
    requires WellFormed(t)
    ensures Convert(Convert(t, Camel), Snake) == t <==> AllKeys(t, SurvivesCamel)
  {
    forall s ensures Snake(Camel(s)) == s <==> SurvivesCamel(s) { SnakeOfCamel(s); }
    TreeComesBack(t, Camel, Snake, SurvivesCamel);
  }
}
