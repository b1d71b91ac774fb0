/** The recovery file's contents: what each tab needs to be opened again, in tab order. */
module Recipes {
  import opened Bytes
  import F = Framing

  const RESTORE_VERSION: u32 := 1
  const RESTORE_LIMIT: nat := 8 * 1024 * 1024
  const RESTORE_TABS: nat := 4096
  const RESTORE_URL_LIMIT: nat := 65536
  const RESTORE_DIRECTORY_LIMIT: nat := 4096
  const SLASH: byte := 0x2f

  datatype Recipe = Recipe(directory: seq<byte>, url: seq<byte>)

  /** An absolute directory, a location, or both; nothing a C string could not hold. */
  predicate ValidRecipe(r: Recipe) {
    && |r.directory| < RESTORE_DIRECTORY_LIMIT && |r.url| <= RESTORE_URL_LIMIT
    && 0 !in r.directory && 0 !in r.url
    && (r.directory == [] || r.directory[0] == SLASH)
    && !(r.directory == [] && r.url == [])
  }

  /** The recipe of a tab: its directory if absolute, the home directory if it has none, the root otherwise. */
  function ForTab(directory: seq<byte>, url: seq<byte>, home: seq<byte>): (r: Recipe) {
    var candidate := if directory == [] then home else directory;
    Recipe(if candidate != [] && candidate[0] == SLASH then candidate else [SLASH], url)
  }

  /** A tab's recipe can be saved exactly when its strings are within bounds and free of NULs. */
  lemma ForTabValid(directory: seq<byte>, url: seq<byte>, home: seq<byte>)
    ensures var r := ForTab(directory, url, home);
      && r.directory != [] && r.directory[0] == SLASH
      && (ValidRecipe(r) <==> |r.directory| < RESTORE_DIRECTORY_LIMIT && 0 !in r.directory && |url| <= RESTORE_URL_LIMIT && 0 !in url)
  {
  }

  predicate AllValid(rs: seq<Recipe>) {
    forall i | 0 <= i < |rs| :: ValidRecipe(rs[i])
  }

  function PutText(s: seq<byte>): (b: seq<byte>)
    requires |s| < 0x1_0000_0000
    ensures |b| == 4 + |s|
  {
    PutU32(|s|) + s
  }

  function PutRecipe(r: Recipe): (b: seq<byte>)
    requires ValidRecipe(r)
  {
    PutText(r.directory) + PutText(r.url)
  }

  function PutRecipes(rs: seq<Recipe>): (b: seq<byte>)
    requires AllValid(rs)
  {
    if rs == [] then [] else PutRecipe(rs[0]) + PutRecipes(rs[1..])
  }

  function Encoding(rs: seq<Recipe>): (b: seq<byte>)
    requires AllValid(rs) && |rs| <= RESTORE_TABS
  {
    PutU32(RESTORE_VERSION) + (PutU32(|rs|) + PutRecipes(rs))
  }

  function Encode(rs: seq<Recipe>): (b: Option<seq<byte>>) {
    if |rs| > RESTORE_TABS || !AllValid(rs) || |Encoding(rs)| > RESTORE_LIMIT then None else Some(Encoding(rs))
  }

  // ---- Reading ----

  function Text(b: seq<byte>): (r: Option<(seq<byte>, seq<byte>)>) {
    var (n, b1) :- Word(b);
    if n > |b1| then None else Some((b1[..n], b1[n..]))
  }

  function ReadRecipe(b: seq<byte>): (r: Option<(Recipe, seq<byte>)>) {
    var (directory, b1) :- Text(b);
    var (url, b2) :- Text(b1);
    if ValidRecipe(Recipe(directory, url)) then Some((Recipe(directory, url), b2)) else None
  }

  function ReadRecipes(b: seq<byte>, count: nat): (r: Option<(seq<Recipe>, seq<byte>)>)
    ensures r.Some? ==> |r.value.0| == count && AllValid(r.value.0)
    decreases count
  {
    if count == 0 then Some(([], b))
    else
      var (first, b1) :- ReadRecipe(b);
      var (more, rest) :- ReadRecipes(b1, count - 1);
      Some(([first] + more, rest))
  }

  function Decode(b: seq<byte>): (rs: Option<seq<Recipe>>) {
    if |b| > RESTORE_LIMIT then None
    else
      var (version, b1) :- Word(b);
      if version != RESTORE_VERSION then None
      else
        var (count, b2) :- Word(b1);
        if count > RESTORE_TABS then None
        else
          var (recipes, rest) :- ReadRecipes(b2, count);
          if rest == [] then Some(recipes) else None
  }

  // ---- Mutual inverses ----

  lemma TextOf(s: seq<byte>, rest: seq<byte>)
    requires |s| < 0x1_0000_0000
    ensures Text(PutText(s) + rest) == Some((s, rest))
  {
    hide PutU32, Word;
    assert PutText(s) + rest == PutU32(|s|) + (s + rest);
    WordOf(|s|, s + rest);
    assert (s + rest)[..|s|] == s && (s + rest)[|s|..] == rest;
  }

  lemma OfText(b: seq<byte>)
    requires Text(b).Some?
    ensures |Text(b).value.0| < 0x1_0000_0000 && b == PutText(Text(b).value.0) + Text(b).value.1
  {
    hide PutU32, Word;
    OfWord(b);
    var (n, b1) := Word(b).value;
    assert b1 == b1[..n] + b1[n..];
  }

  lemma RecipeOf(r: Recipe, rest: seq<byte>)
    requires ValidRecipe(r)
    ensures ReadRecipe(PutRecipe(r) + rest) == Some((r, rest))
  {
    hide Text, PutText;
    assert PutRecipe(r) + rest == PutText(r.directory) + (PutText(r.url) + rest);
    TextOf(r.directory, PutText(r.url) + rest);
    TextOf(r.url, rest);
  }

  lemma OfRecipe(b: seq<byte>)
    requires ReadRecipe(b).Some?
    ensures ValidRecipe(ReadRecipe(b).value.0) && b == PutRecipe(ReadRecipe(b).value.0) + ReadRecipe(b).value.1
  {
    hide Text, PutText;
    OfText(b);
    OfText(Text(b).value.1);
  }

  lemma {:induction false} RecipesOf(rs: seq<Recipe>, rest: seq<byte>)
    requires AllValid(rs)
    ensures ReadRecipes(PutRecipes(rs) + rest, |rs|) == Some((rs, rest))
  {
    hide ReadRecipe, PutRecipe, ValidRecipe;
    if rs == [] {
      assert PutRecipes(rs) + rest == rest;
    } else {
      assert PutRecipes(rs) + rest == PutRecipe(rs[0]) + (PutRecipes(rs[1..]) + rest);
      RecipeOf(rs[0], PutRecipes(rs[1..]) + rest);
      RecipesOf(rs[1..], rest);
      assert [rs[0]] + rs[1..] == rs;
    }
  }

  lemma {:induction false} OfRecipes(b: seq<byte>, count: nat)
    requires ReadRecipes(b, count).Some?
    ensures b == PutRecipes(ReadRecipes(b, count).value.0) + ReadRecipes(b, count).value.1
    decreases count
  {
    hide ReadRecipe, PutRecipe, ValidRecipe;
    if count > 0 {
      var (first, b1) := ReadRecipe(b).value;
      OfRecipe(b);
      OfRecipes(b1, count - 1);
      var (more, rest) := ReadRecipes(b1, count - 1).value;
      assert ([first] + more)[1..] == more;
      assert PutRecipe(first) + (PutRecipes(more) + rest) == (PutRecipe(first) + PutRecipes(more)) + rest;
    }
  }

  /** Whatever can be encoded decodes to itself. */
  lemma DecodeEncode(rs: seq<Recipe>)
    requires Encode(rs).Some?
    ensures Decode(Encode(rs).value) == Some(rs)
  {
    hide PutU32, Word, PutRecipes, ReadRecipes, AllValid;
    WordOf(RESTORE_VERSION, PutU32(|rs|) + PutRecipes(rs));
    WordOf(|rs|, PutRecipes(rs));
    RecipesOf(rs, []);
    assert PutRecipes(rs) + [] == PutRecipes(rs);
  }

  /** Whatever is accepted is the encoding of what it decodes to: no two files mean the same tabs. */
  lemma EncodeDecode(b: seq<byte>)
    requires Decode(b).Some?
    ensures Encode(Decode(b).value) == Some(b)
  {
    hide PutU32, Word, PutRecipes, ReadRecipes, AllValid;
    OfWord(b);
    var b1 := Word(b).value.1;
    OfWord(b1);
    var (count, b2) := Word(b1).value;
    OfRecipes(b2, count);
    var rs := ReadRecipes(b2, count).value.0;
    assert PutRecipes(rs) + [] == PutRecipes(rs);
    assert b == PutU32(RESTORE_VERSION) + (PutU32(count) + PutRecipes(rs));
  }

  // ---- The loops ----

  lemma {:induction false} RecipesConcat(a: seq<Recipe>, b: seq<Recipe>)
    requires AllValid(a) && AllValid(b)
    ensures AllValid(a + b) && PutRecipes(a + b) == PutRecipes(a) + PutRecipes(b)
  {
    hide PutRecipe, ValidRecipe;
    if a == [] {
      assert a + b == b;
    } else {
      RecipesConcat(a[1..], b);
      assert (a + b)[1..] == a[1..] + b;
    }
  }

  lemma RecipesNext(rs: seq<Recipe>, i: nat)
    requires i < |rs| && AllValid(rs[..i]) && ValidRecipe(rs[i])
    ensures AllValid(rs[..i + 1]) && PutRecipes(rs[..i + 1]) == PutRecipes(rs[..i]) + PutRecipe(rs[i])
    ensures AllValid(rs) ==> |PutRecipes(rs[..i + 1])| <= |PutRecipes(rs)|
  {
    hide PutRecipe, ValidRecipe;
    var one := [rs[i]];
    assert rs[..i + 1] == rs[..i] + one;
    RecipesConcat(rs[..i], one);
    assert one[1..] == [];
    assert PutRecipes(one) == PutRecipe(rs[i]) + [];
    if AllValid(rs) {
      assert rs == rs[..i + 1] + rs[i + 1..];
      RecipesConcat(rs[..i + 1], rs[i + 1..]);
    }
  }

  /** One recipe, whole or not at all as far as the caller goes on. */
  method PutOne(buffer: F.Buffer, r: Recipe) returns (ok: bool)
    requires buffer.Valid()
    modifies buffer
    ensures buffer.Valid()
    ensures ok <==> ValidRecipe(r) && |old(buffer.bytes)| + |PutRecipe(r)| <= buffer.limit
    ensures ok ==> buffer.bytes == old(buffer.bytes) + PutRecipe(r)
  {
    hide PutU32;
    if !ValidRecipe(r) {
      return false;
    }
    ghost var before := buffer.bytes;
    ok := buffer.PutString(r.directory);
    if !ok {
      return;
    }
    ok := buffer.PutString(r.url);
    assert ok ==> buffer.bytes == before + (PutText(r.directory) + PutText(r.url));
  }

  /** Validate and append each recipe; the first that is invalid or does not fit fails the whole. */
  method EncodeRecipes(rs: seq<Recipe>) returns (b: Option<seq<byte>>)
    ensures b == Encode(rs)
  {
    hide PutU32, PutRecipe, ValidRecipe, PutRecipes;
    if |rs| > RESTORE_TABS {
      return None;
    }
    var buffer := new F.Buffer(RESTORE_LIMIT);
    var head := PutU32(RESTORE_VERSION) + PutU32(|rs|);
    var ok := buffer.PutBytes(PutU32(RESTORE_VERSION));
    ok := buffer.PutBytes(PutU32(|rs|));
    NoRecipes(rs);
    assert AllValid(rs) ==> Encoding(rs) == head + PutRecipes(rs);
    assert buffer.bytes == head + PutRecipes(rs[..0]);
    for i := 0 to |rs|
      invariant buffer.Valid() && buffer.limit == RESTORE_LIMIT && fresh(buffer)
      invariant AllValid(rs[..i]) && buffer.bytes == head + PutRecipes(rs[..i])
    {
      ok := PutOne(buffer, rs[i]);
      if ValidRecipe(rs[i]) {
        RecipesNext(rs, i);
      }
      if !ok {
        return None;
      }
      assert head + (PutRecipes(rs[..i]) + PutRecipe(rs[i])) == head + PutRecipes(rs[..i]) + PutRecipe(rs[i]);
    }
    assert rs[..|rs|] == rs;
    b := Some(buffer.bytes);
  }

  lemma NoRecipes(rs: seq<Recipe>)
    ensures AllValid(rs[..0]) && PutRecipes(rs[..0]) == []
  {
  }

  method ReadString(payload: F.Payload) returns (s: Option<seq<byte>>)
    modifies payload
    ensures Text(old(payload.bytes)) == if s.Some? then Some((s.value, payload.bytes)) else None
  {
    hide WordAt;
    var n := payload.Word();
    if n.None? {
      return None;
    }
    s := payload.Take(n.value);
  }

  /** Read recipe after recipe; anything invalid, short or left over refuses the file. */
  method DecodeRecipes(b: seq<byte>) returns (rs: Option<seq<Recipe>>)
    ensures rs == Decode(b)
  {
    hide WordAt, ValidRecipe, ReadRecipes, Text;
    if |b| > RESTORE_LIMIT {
      return None;
    }
    var payload := new F.Payload(b);
    var version := payload.Word();
    if version.None? || version.value != RESTORE_VERSION {
      return None;
    }
    var count := payload.Word();
    if count.None? || count.value > RESTORE_TABS {
      return None;
    }
    ghost var whole := ReadRecipes(payload.bytes, count.value);
    var left: nat := count.value;
    var recipes: seq<Recipe> := [];
    assert whole.Some? ==> [] + whole.value.0 == whole.value.0;
    while left > 0
      invariant var more := ReadRecipes(payload.bytes, left);
        whole == if more.None? then None else Some((recipes + more.value.0, more.value.1))
    {
      RecipesFirst(payload.bytes, left);
      var directory := ReadString(payload);
      if directory.None? {
        return None;
      }
      var url := ReadString(payload);
      if url.None? {
        return None;
      }
      var recipe := Recipe(directory.value, url.value);
      if !ValidRecipe(recipe) {
        return None;
      }
      ghost var more := ReadRecipes(payload.bytes, left - 1);
      assert more.Some? ==> recipes + ([recipe] + more.value.0) == (recipes + [recipe]) + more.value.0;
      recipes := recipes + [recipe];
      left := left - 1;
    }
    RecipesNone(payload.bytes);
    assert recipes + [] == recipes;
    rs := if payload.bytes == [] then Some(recipes) else None;
  }

  lemma RecipesFirst(b: seq<byte>, count: nat)
    requires count > 0
    ensures var first := ReadRecipe(b);
      ReadRecipes(b, count) ==
        if first.None? then None
        else
          var more := ReadRecipes(first.value.1, count - 1);
          if more.None? then None else Some(([first.value.0] + more.value.0, more.value.1))
  {
    hide ReadRecipe;
  }

  lemma RecipesNone(b: seq<byte>)
    ensures ReadRecipes(b, 0) == Some(([], b))
  {
  }
}
