/**
 The HTTP-log sanitizer: a depth-bounded copy of an arbitrary object graph in which sensitive
 entries are redacted, long strings cut, and objects open on the current path cut short.
 A `char` stands for one UTF-16 code unit.
 */
module LogSanitizer {
  import opened Wrappers
  import opened JsonTrees

  const REDACTED := "[REDACTED]"
  const TRUNCATED_SUFFIX := "...[TRUNCATED]"
  const MAX_DEPTH := "[MAX_DEPTH_REACHED]"
  const CIRCULAR := "[CIRCULAR_REFERENCE]"
  const UNSERIALIZABLE := "[UNSERIALIZABLE_VALUE]"
  const MAX_STRING_LENGTH := 4000
  const MAX_OBJECT_DEPTH := 6
  const LONGEST := 4014

  const SENSITIVE_KEYS: set<string> := {
    "apikey", "authorization", "clientsecret", "cookie", "cookies", "password", "passwordconfirmation",
    "passwordhash", "refreshtoken", "secret", "set-cookie", "token", "accesstoken", "invitationtoken",
    "privatekey", "resettoken", "verificationtoken"
  }

  type Address = nat

  /** What `BigInt.toString` prints. */
  type Digits = s: string | forall i :: 0 <= i < |s| ==> s[i] == '-' || '0' <= s[i] <= '9'

  /** What `Date.toISOString` prints. */
  type IsoDate = s: string | |s| <= 27

  /** A value of the host language; objects and arrays live on the heap. */
  datatype Value =
    | Null
    | Bool(b: bool)
    | Num(n: int)
    | Str(s: string)
    | Undefined
    | Date(iso: IsoDate)
    | BigInt(digits: Digits)
    | Buffer(text: string)
    | Symbol(description: Option<string>)
    | Function
    | Ref(address: Address)

  datatype Entry = Entry(key: string, value: Value)

  datatype ErrorText = ErrorText(name: string, message: string)

  /**
   A map or a class instance is an object with its own enumerable entries, like any other, and so is an error,
   whose name and message are usually not among them.
   */
  datatype Node = Array(items: seq<Value>) | Object(entries: seq<Entry>, error: Option<ErrorText>)

  type Heap = map<Address, Node>

  /** The three tests the code puts to a value on the heap, in this order. */
  predicate IsArray(n: Node) {
    n.Array?
  }

  predicate IsPlainObject(n: Node) {
    !IsArray(n)
  }

  predicate IsError(n: Node) {
    match n
    case Array(_) => false
    case Object(_, error) => error.Some?
  }

  function NameOf(n: Node): string {
    match n
    case Object(_, Some(text)) => text.name
    case _ => ""
  }

  function MessageOf(n: Node): string {
    match n
    case Object(_, Some(text)) => text.message
    case _ => ""
  }

  function Get(h: Heap, a: Address): Node {
    if a in h then h[a] else Object([], None)
  }

  function Truncate(s: string): (r: string)
    ensures |r| <= LONGEST
    ensures |s| <= MAX_STRING_LENGTH ==> r == s
  {
    if |s| <= MAX_STRING_LENGTH then s else s[..MAX_STRING_LENGTH] + TRUNCATED_SUFFIX
  }

  /** Lower-casing followed by dropping everything but a-z; two other characters lower-case into a-z. */
  function LetterOf(c: char): string {
    if 'a' <= c <= 'z' then [c]
    else if 'A' <= c <= 'Z' then [(c as int + 32) as char]
    else if c == '\U{0130}' then ['i']
    else if c == '\U{212A}' then ['k']
    else []
  }

  function Letters(key: string): string {
    if key == "" then "" else LetterOf(key[0]) + Letters(key[1..])
  }

  predicate ShouldRedact(key: string) {
    Letters(key) in SENSITIVE_KEYS
  }

  lemma {:induction false} LettersConcat(a: string, b: string)
    ensures Letters(a + b) == Letters(a) + Letters(b)
  {
    if a == "" {
      assert a + b == b;
    } else {
      assert (a + b)[1..] == a[1..] + b;
      LettersConcat(a[1..], b);
    }
  }

  lemma {:induction false} LettersOfLetters(s: string)
    requires forall i :: 0 <= i < |s| ==> 'a' <= s[i] <= 'z'
    ensures Letters(s) == s
  {
    if s == "" {
    } else {
      LettersOfLetters(s[1..]);
      assert s == [s[0]] + s[1..];
    }
  }

  /** The letters of a key; the dotted capital I and the Kelvin sign are the two others that lower-case into a-z. */
  predicate IsLetter(c: char) {
    'a' <= c <= 'z' || 'A' <= c <= 'Z' || c == '\U{0130}' || c == '\U{212A}'
  }

  predicate SameLetter(c: char, d: char) {
    || c == d
    || (c as int + 32 == d as int && 'A' <= c <= 'Z') || (d as int + 32 == c as int && 'A' <= d <= 'Z')
    || (c in "iI\U{0130}" && d in "iI\U{0130}") || (c in "kK\U{212A}" && d in "kK\U{212A}")
  }

  /** Reading two keys side by side, skipping what is no letter and minding no case. */
  predicate SameSpelling(a: string, b: string)
    decreases |a| + |b|
  {
    if a != "" && !IsLetter(a[0]) then SameSpelling(a[1..], b)
    else if b != "" && !IsLetter(b[0]) then SameSpelling(a, b[1..])
    else if a == "" || b == "" then a == b
    else SameLetter(a[0], b[0]) && SameSpelling(a[1..], b[1..])
  }

  lemma OneLetter(c: char)
    ensures IsLetter(c) ==> |LetterOf(c)| == 1 && SameLetter(LetterOf(c)[0], c) && 'a' <= LetterOf(c)[0] <= 'z'
    ensures !IsLetter(c) ==> LetterOf(c) == ""
  {
  }

  lemma LettersAgree(c: char, d: char)
    requires IsLetter(c) && IsLetter(d)
    ensures LetterOf(c) == LetterOf(d) <==> SameLetter(c, d)
  {
    OneLetter(c);
    OneLetter(d);
    var x, y := LetterOf(c)[0], LetterOf(d)[0];
    assert LetterOf(c) == [x] && LetterOf(d) == [y];
    assert x == y <==> SameLetter(c, d);
  }

  lemma {:induction false} SpellingIsLetters(a: string, b: string)
    ensures SameSpelling(a, b) <==> Letters(a) == Letters(b)
    decreases |a| + |b|
  {
    if a != "" {
      OneLetter(a[0]);
    }
    if b != "" {
      OneLetter(b[0]);
    }
    if a != "" && !IsLetter(a[0]) {
      SpellingIsLetters(a[1..], b);
      assert Letters(a) == Letters(a[1..]);
    } else if b != "" && !IsLetter(b[0]) {
      SpellingIsLetters(a, b[1..]);
      assert Letters(b) == Letters(b[1..]);
    } else if a == "" || b == "" {
      assert Letters("") == "";
    } else {
      SpellingIsLetters(a[1..], b[1..]);
      LettersAgree(a[0], b[0]);
      HeadsAgree(LetterOf(a[0]), Letters(a[1..]), LetterOf(b[0]), Letters(b[1..]));
    }
  }

  lemma HeadsAgree(a: string, s: string, b: string, t: string)
    requires |a| == |b| == 1
    ensures a + s == b + t <==> a == b && s == t
  {
    if a + s == b + t {
      assert (a + s)[0] == (b + t)[0] && (a + s)[1..] == s && (b + t)[1..] == t;
    }
  }

  /** Redaction goes by spelling, and every listed key written in letters is redacted in each of its spellings. */
  lemma RedactsAnySpelling(a: string, b: string)
    requires SameSpelling(a, b)
    ensures ShouldRedact(a) <==> ShouldRedact(b)
    ensures (forall i :: 0 <= i < |a| ==> 'a' <= a[i] <= 'z') && a in SENSITIVE_KEYS ==> ShouldRedact(b)
  {
    SpellingIsLetters(a, b);
    if forall i :: 0 <= i < |a| ==> 'a' <= a[i] <= 'z' {
      LettersOfLetters(a);
    }
  }

  lemma {:induction false} LettersHaveNoHyphen(key: string, i: nat)
    requires i < |Letters(key)|
    ensures Letters(key)[i] != '-'
  {
    var head := Letters(key)[..|Letters(key)| - |Letters(key[1..])|];
    assert Letters(key) == head + Letters(key[1..]);
    if i < |head| {
    } else {
      LettersHaveNoHyphen(key[1..], i - |head|);
    }
  }

  /** The listed key `set-cookie` matches nothing, because no key keeps its hyphen. */
  lemma SetCookieNeverMatches(key: string)
    ensures Letters(key) != "set-cookie"
  {
    if Letters(key) == "set-cookie" {
      assert Letters(key)[3] == '-';
      LettersHaveNoHyphen(key, 3);
    }
  }

  predicate OnlyLetters(key: string) {
    forall i :: 0 <= i < |key| ==> 'a' <= key[i] <= 'z'
  }

  lemma ListedKeyHasLetterAt(key: string, i: nat)
    requires key in SENSITIVE_KEYS && key != "set-cookie" && i < |key|
    ensures 'a' <= key[i] <= 'z'
  {
  }

  lemma ListedKeysAreLetters(key: string)
    requires key in SENSITIVE_KEYS && key != "set-cookie"
    ensures OnlyLetters(key)
  {
    forall i: nat | i < |key| ensures 'a' <= key[i] <= 'z' {
      ListedKeyHasLetterAt(key, i);
    }
  }

  /** So nothing that spells `set` first is redacted, the cookie header of a response included, in any case. */
  lemma SetCookieIsShown(key: string)
    requires |Letters(key)| >= 3 && Letters(key)[0] == 's' && Letters(key)[1] == 'e' && Letters(key)[2] == 't'
    ensures !ShouldRedact(key)
  {
    SetCookieNeverMatches(key);
  }

  lemma SetKeyIsShown(key: string)
    requires |key| >= 3 && key[0] in "Ss" && key[1] in "Ee" && key[2] in "Tt"
    ensures !ShouldRedact(key)
  {
    assert Letters(key[1..]) == LetterOf(key[1]) + Letters(key[1..][1..]);
    assert Letters(key[1..][1..]) == LetterOf(key[2]) + Letters(key[1..][1..][1..]);
    assert Letters(key) == ['s'] + (['e'] + (['t'] + Letters(key[1..][1..][1..])));
    SetCookieIsShown(key);
  }

  lemma SetCookieHeader(rest: string)
    ensures !ShouldRedact("Set-" + rest)
  {
    SetKeyIsShown("Set-" + rest);
  }

  /** A listed key redacts itself exactly if it consists of letters, which `set-cookie` does not. */
  lemma ListedKeyRedactsItselfIff(key: string)
    requires key in SENSITIVE_KEYS
    ensures ShouldRedact(key) <==> OnlyLetters(key)
  {
    if key == "set-cookie" {
      assert key[3] == '-';
      SetKeyIsShown(key);
    } else {
      ListedKeysAreLetters(key);
      LettersOfLetters(key);
    }
  }

  /** A key is redacted if and only if it spells a listed key, `set-cookie` excepted, which nothing spells. */
  lemma RedactedIffSpelled(key: string)
    ensures ShouldRedact(key) <==>
      exists listed :: listed in SENSITIVE_KEYS && listed != "set-cookie" && SameSpelling(key, listed)
  {
    if ShouldRedact(key) {
      var listed := Letters(key);
      SetCookieNeverMatches(key);
      ListedKeysAreLetters(listed);
      LettersOfLetters(listed);
      SpellingIsLetters(key, listed);
    }
    if listed :| listed in SENSITIVE_KEYS && listed != "set-cookie" && SameSpelling(key, listed) {
      ListedKeysAreLetters(listed);
      LettersOfLetters(listed);
      SpellingIsLetters(key, listed);
    }
  }

  lemma {:induction false} LetterByLetter(a: string, b: string)
    requires |a| == |b|
    requires forall i :: 0 <= i < |a| ==> IsLetter(a[i]) && IsLetter(b[i]) && SameLetter(a[i], b[i])
    ensures SameSpelling(a, b)
  {
    if a == "" {
    } else {
      LetterByLetter(a[1..], b[1..]);
    }
  }

  const DOCUMENTED_KEYS: set<string> := {
    "apiKey", "clientSecret", "resetToken", "verificationToken", "invitationToken", "privateKey"
  }

  lemma DocumentedKeyIsListed(key: string) returns (listed: string)
    requires key in DOCUMENTED_KEYS
    ensures listed in SENSITIVE_KEYS && listed != "set-cookie" && SameSpelling(key, listed)
  {
    listed :=
      if key == "apiKey" then "apikey" else if key == "clientSecret" then "clientsecret"
      else if key == "resetToken" then "resettoken" else if key == "verificationToken" then "verificationtoken"
      else if key == "invitationToken" then "invitationtoken" else "privatekey";
    LetterByLetter(key, listed);
  }

  /** The keys that the documentation names are redacted, however they are spelled. */
  lemma DocumentedKeysAreRedacted(key: string, spelling: string)
    requires key in DOCUMENTED_KEYS && SameSpelling(spelling, key)
    ensures ShouldRedact(spelling)
  {
    var listed := DocumentedKeyIsListed(key);
    RedactedIffSpelled(key);
    RedactsAnySpelling(spelling, key);
  }

  // ----- The specification: `open` holds the objects on the path from the root -----

  function Description(description: Option<string>): string {
    if description.Some? then description.value else "[SYMBOL]"
  }

  /** The copy of anything but an object or array above the depth limit. */
  function Leaf(v: Value, depth: nat): Json
    requires v.Ref? ==> depth >= MAX_OBJECT_DEPTH
  {
    match v
    case Null => Json.Null
    case Bool(b) => Json.Bool(b)
    case Num(n) => Json.Num(n)
    case Str(s) => Json.Str(Truncate(s))
    case Undefined => Json.Null
    case _ =>
      if depth >= MAX_OBJECT_DEPTH then Json.Str(MAX_DEPTH)
      else
        match v
        case Date(iso) => Json.Str(iso)
        case BigInt(digits) => Json.Str(digits)
        case Buffer(text) => Json.Str(Truncate(text))
        case Symbol(description) => Json.Str(Truncate(Description(description)))
        case Function => Json.Str("[FUNCTION]")
  }

  /** What the branch for errors makes of one. */
  function NameAndMessage(n: Node): Json {
    Obj([Field("name", Json.Str(NameOf(n))), Field("message", Json.Str(Truncate(MessageOf(n))))])
  }

  function Sanitize(h: Heap, v: Value, depth: nat, open: set<Address>): Json
    requires depth <= MAX_OBJECT_DEPTH
    decreases MAX_OBJECT_DEPTH - depth, 0
  {
    if !v.Ref? || depth == MAX_OBJECT_DEPTH then Leaf(v, depth)
    else
      var n := Get(h, v.address);
      if IsArray(n) then Arr(SanitizeItems(h, n.items, depth + 1, open))
      else if IsPlainObject(n) then
        if v.address in open then Json.Str(CIRCULAR)
        else Obj(SanitizeEntries(h, n.entries, depth + 1, open + {v.address}))
      else if IsError(n) then NameAndMessage(n)
      else Json.Str(UNSERIALIZABLE)
  }

  function SanitizeItems(h: Heap, items: seq<Value>, depth: nat, open: set<Address>): seq<Json>
    requires depth <= MAX_OBJECT_DEPTH
    decreases MAX_OBJECT_DEPTH - depth, 1
  {
    seq(|items|, i requires 0 <= i < |items| => Sanitize(h, items[i], depth, open))
  }

  function SanitizeEntry(h: Heap, e: Entry, depth: nat, open: set<Address>): Field
    requires depth <= MAX_OBJECT_DEPTH
    decreases MAX_OBJECT_DEPTH - depth, 1
  {
    Field(e.key, if ShouldRedact(e.key) then Json.Str(REDACTED) else Sanitize(h, e.value, depth, open))
  }

  function SanitizeEntries(h: Heap, entries: seq<Entry>, depth: nat, open: set<Address>): seq<Field>
    requires depth <= MAX_OBJECT_DEPTH
    decreases MAX_OBJECT_DEPTH - depth, 2
  {
    seq(|entries|, i requires 0 <= i < |entries| => SanitizeEntry(h, entries[i], depth, open))
  }

  // ----- The code: one mutable set of objects, added to on entry and removed from on exit -----

  class WeakSet {
    var members: set<Address>

    constructor ()
      ensures members == {}
    {
      members := {};
    }
  }

  /** Terminates on every graph, leaves `seen` as it found it, and computes the specification. */
  method SanitizeUnknown(h: Heap, v: Value, depth: nat, seen: WeakSet) returns (r: Json)
    requires depth <= MAX_OBJECT_DEPTH
    modifies seen
    ensures seen.members == old(seen.members)
    ensures r == Sanitize(h, v, depth, old(seen.members))
    decreases MAX_OBJECT_DEPTH - depth, 0
  {
    match v {
      case Null => return Json.Null;
      case Bool(b) => return Json.Bool(b);
      case Num(n) => return Json.Num(n);
      case Str(s) => return Json.Str(Truncate(s));
      case Undefined => return Json.Null;
      case _ =>
    }
    if depth >= MAX_OBJECT_DEPTH {
      return Json.Str(MAX_DEPTH);
    }
    match v {
      case Date(iso) => r := Json.Str(iso);
      case BigInt(digits) => r := Json.Str(digits);
      case Buffer(text) => r := Json.Str(Truncate(text));
      case Symbol(description) =>
        r := Json.Str(Truncate(Description(description)));
      case Function => r := Json.Str("[FUNCTION]");
      case Ref(a) =>
        var n := Get(h, a);
        if IsArray(n) {
          var copy := SanitizeArray(h, n.items, depth + 1, seen);
          r := Arr(copy);
        } else if IsPlainObject(n) {
          if a in seen.members {
            r := Json.Str(CIRCULAR);
          } else {
            seen.members := seen.members + {a};
            var copy := SanitizeObject(h, n.entries, depth + 1, seen);
            seen.members := seen.members - {a};
            r := Obj(copy);
          }
        } else if IsError(n) {
          r := NameAndMessage(n);
        } else {
          r := Json.Str(UNSERIALIZABLE);
        }
    }
  }

  method SanitizeArray(h: Heap, items: seq<Value>, depth: nat, seen: WeakSet) returns (copy: seq<Json>)
    requires depth <= MAX_OBJECT_DEPTH
    modifies seen
    ensures seen.members == old(seen.members)
    ensures copy == SanitizeItems(h, items, depth, old(seen.members))
    decreases MAX_OBJECT_DEPTH - depth, 1
  {
    copy := [];
    for i := 0 to |items|
      invariant seen.members == old(seen.members)
      invariant |copy| == i && forall k :: 0 <= k < i ==> copy[k] == Sanitize(h, items[k], depth, old(seen.members))
    {
      var item := SanitizeUnknown(h, items[i], depth, seen);
      copy := copy + [item];
    }
  }

  method SanitizeObject(h: Heap, entries: seq<Entry>, depth: nat, seen: WeakSet) returns (copy: seq<Field>)
    requires depth <= MAX_OBJECT_DEPTH
    modifies seen
    ensures seen.members == old(seen.members)
    ensures copy == SanitizeEntries(h, entries, depth, old(seen.members))
    decreases MAX_OBJECT_DEPTH - depth, 1
  {
    copy := [];
    for i := 0 to |entries|
      invariant seen.members == old(seen.members)
      invariant |copy| == i
      invariant forall k :: 0 <= k < i ==> copy[k] == SanitizeEntry(h, entries[k], depth, old(seen.members))
    {
      if ShouldRedact(entries[i].key) {
        copy := copy + [Field(entries[i].key, Json.Str(REDACTED))];
      } else {
        var value := SanitizeUnknown(h, entries[i].value, depth, seen);
        copy := copy + [Field(entries[i].key, value)];
      }
    }
  }

  // ----- Where the output comes from -----

  /** Where a path of item and entry positions leads: to a value, to a redacted entry, or nowhere. */
  datatype End = Reaches(value: Value, open: set<Address>) | Redacted | Nowhere

  /** Follows a path through the graph without entering a plain object twice; `open` collects those entered. */
  function Walk(h: Heap, v: Value, path: seq<nat>, open: set<Address>): End
    decreases |path|
  {
    if path == [] then Reaches(v, open)
    else if !v.Ref? then Nowhere
    else
      match Get(h, v.address)
      case Array(items) =>
        if path[0] < |items| then Walk(h, items[path[0]], path[1..], open) else Nowhere
      case Object(entries, _) =>
        if v.address in open || path[0] >= |entries| then Nowhere
        else if !ShouldRedact(entries[path[0]].key) then
          Walk(h, entries[path[0]].value, path[1..], open + {v.address})
        else if |path| == 1 then Redacted
        else Nowhere
  }

  function At(j: Json, path: seq<nat>): Option<Json> {
    if path == [] then Some(j)
    else
      match j
      case Arr(items) => if path[0] < |items| then At(items[path[0]], path[1..]) else None
      case Obj(fields) => if path[0] < |fields| then At(fields[path[0]].value, path[1..]) else None
      case _ => None
  }

  /**
   What the output holds at a path: below level six nothing; up to there, the copy of the value the same path
   leads to in the graph, the redaction marker where it leads to a redacted entry, and nothing elsewhere.
   */
  function Expected(h: Heap, v: Value, depth: nat, open: set<Address>, path: seq<nat>): Option<Json>
    requires depth <= MAX_OBJECT_DEPTH
  {
    if depth + |path| > MAX_OBJECT_DEPTH then None
    else
      match Walk(h, v, path, open)
      case Reaches(w, o) => Some(Sanitize(h, w, depth + |path|, o))
      case Redacted => Some(Json.Str(REDACTED))
      case Nowhere => None
  }

  lemma {:induction false} PathTheorem(h: Heap, v: Value, depth: nat, open: set<Address>, path: seq<nat>)
    requires depth <= MAX_OBJECT_DEPTH
    ensures At(Sanitize(h, v, depth, open), path) == Expected(h, v, depth, open, path)
    decreases |path|
  {
    if path == [] || !v.Ref? || depth == MAX_OBJECT_DEPTH {
      NoStep(h, v, depth, open, path);
    } else {
      match Get(h, v.address)
      case Array(items) =>
        ArrayStep(h, v.address, depth, open, path);
        if path[0] < |items| {
          PathTheorem(h, items[path[0]], depth + 1, open, path[1..]);
        }
      case Object(entries, _) =>
        ObjectStep(h, v.address, depth, open, path);
        if v.address !in open && path[0] < |entries| {
          var e := entries[path[0]];
          if ShouldRedact(e.key) {
            assert path[1..] != [] ==> At(Json.Str(REDACTED), path[1..]) == None;
          } else {
            PathTheorem(h, e.value, depth + 1, open + {v.address}, path[1..]);
          }
        }
    }
  }

  lemma NoStep(h: Heap, v: Value, depth: nat, open: set<Address>, path: seq<nat>)
    requires depth <= MAX_OBJECT_DEPTH
    requires path == [] || !v.Ref? || depth == MAX_OBJECT_DEPTH
    ensures At(Sanitize(h, v, depth, open), path) == Expected(h, v, depth, open, path)
  {
    if path == [] {
      assert Walk(h, v, path, open) == Reaches(v, open);
    } else {
      assert !Sanitize(h, v, depth, open).Arr? && !Sanitize(h, v, depth, open).Obj?;
    }
  }

  lemma CopiedArray(h: Heap, a: Address, depth: nat, open: set<Address>)
    requires depth < MAX_OBJECT_DEPTH && Get(h, a).Array?
    ensures Sanitize(h, Ref(a), depth, open) == Arr(SanitizeItems(h, Get(h, a).items, depth + 1, open))
  {}

  lemma CopiedObject(h: Heap, a: Address, depth: nat, open: set<Address>)
    requires depth < MAX_OBJECT_DEPTH && Get(h, a).Object?
    ensures Sanitize(h, Ref(a), depth, open) ==
      if a in open then Json.Str(CIRCULAR) else Obj(SanitizeEntries(h, Get(h, a).entries, depth + 1, open + {a}))
  {}

  lemma AtItem(items: seq<Json>, path: seq<nat>)
    requires path != []
    ensures At(Arr(items), path) == if path[0] < |items| then At(items[path[0]], path[1..]) else None
  {}

  lemma AtField(fields: seq<Field>, path: seq<nat>)
    requires path != []
    ensures At(Obj(fields), path) == if path[0] < |fields| then At(fields[path[0]].value, path[1..]) else None
  {}

  lemma ArrayStep(h: Heap, a: Address, depth: nat, open: set<Address>, path: seq<nat>)
    requires depth < MAX_OBJECT_DEPTH && path != [] && Get(h, a).Array?
    ensures At(Sanitize(h, Ref(a), depth, open), path) ==
      if path[0] < |Get(h, a).items| then At(Sanitize(h, Get(h, a).items[path[0]], depth + 1, open), path[1..])
      else None
  {
    CopiedArray(h, a, depth, open);
    AtItem(SanitizeItems(h, Get(h, a).items, depth + 1, open), path);
  }

  lemma ObjectStep(h: Heap, a: Address, depth: nat, open: set<Address>, path: seq<nat>)
    requires depth < MAX_OBJECT_DEPTH && path != [] && Get(h, a).Object?
    ensures At(Sanitize(h, Ref(a), depth, open), path) ==
      if a in open || path[0] >= |Get(h, a).entries| then None
      else At(SanitizeEntry(h, Get(h, a).entries[path[0]], depth + 1, open + {a}).value, path[1..])
  {
    CopiedObject(h, a, depth, open);
    if a !in open {
      AtField(SanitizeEntries(h, Get(h, a).entries, depth + 1, open + {a}), path);
    }
  }

  /** The output is never nested more than six levels deep. */
  lemma HeightIsBounded(h: Heap, v: Value, path: seq<nat>)
    requires At(Sanitize(h, v, 0, {}), path).Some?
    ensures |path| <= MAX_OBJECT_DEPTH
  {
    PathTheorem(h, v, 0, {}, path);
  }

  /** The objects open at the end of a path are those open before and the plain objects passed on the way. */
  lemma {:induction false} OpenOnThePath(h: Heap, v: Value, path: seq<nat>, open: set<Address>, a: Address)
    requires Walk(h, v, path, open).Reaches?
    ensures a in Walk(h, v, path, open).open <==>
      a in open || exists k :: 0 <= k < |path| && Passes(h, v, path[..k], open, a)
    decreases |path|
  {
    if path == [] {
    } else {
      assert open + {} == open;
      var entered := open + if Get(h, v.address).Object? then {v.address} else {};
      var next := Children(Get(h, v.address))[path[0]];
      assert Walk(h, v, path, open) == Walk(h, next, path[1..], entered);
      OpenOnThePath(h, next, path[1..], entered, a);
      forall k | 0 < k <= |path|
        ensures Passes(h, v, path[..k], open, a) <==> Passes(h, next, path[1..][..k - 1], entered, a)
      {
        assert path[..k][1..] == path[1..][..k - 1];
      }
      assert Passes(h, v, path[..0], open, a) <==> a in {v.address} && Get(h, a).Object?;
      if k :| 0 <= k < |path[1..]| && Passes(h, next, path[1..][..k], entered, a) {
        assert Passes(h, v, path[..k + 1], open, a);
      }
      if k :| 0 < k < |path| && Passes(h, v, path[..k], open, a) {
        assert Passes(h, next, path[1..][..k - 1], entered, a);
      }
    }
  }

  function Children(n: Node): seq<Value> {
    match n
    case Array(items) => items
    case Object(entries, _) => seq(|entries|, i requires 0 <= i < |entries| => entries[i].value)
  }

  /** The path leads to the plain object `a`. */
  predicate Passes(h: Heap, v: Value, path: seq<nat>, open: set<Address>, a: Address) {
    var end := Walk(h, v, path, open);
    end.Reaches? && end.value == Ref(a) && Get(h, a).Object?
  }

  /**
   Above the depth limit a plain object is replaced by the circular marker exactly when it lies on its own
   path from the root; otherwise it is copied in full, however many other paths lead to it.
   */
  lemma CircularIffOpenOnThePath(h: Heap, v: Value, path: seq<nat>, a: Address)
    requires |path| < MAX_OBJECT_DEPTH && Passes(h, v, path, {}, a)
    ensures var copy := At(Sanitize(h, v, 0, {}), path);
      if exists k :: 0 <= k < |path| && Passes(h, v, path[..k], {}, a)
      then copy == Some(Json.Str(CIRCULAR))
      else copy.Some? && copy.value.Obj? && |copy.value.fields| == |Get(h, a).entries|
  {
    PathTheorem(h, v, 0, {}, path);
    OpenOnThePath(h, v, path, {}, a);
    CopiedObject(h, a, |path|, Walk(h, v, path, {}).open);
  }

  // ----- What the log says, node by node -----

  /** How a string is logged: whole up to 4000 characters, and otherwise by its first 4000 and a marker. */
  predicate IsCut(s: string, r: string) {
    if |s| <= 4000 then r == s
    else |r| == 4014 && r[..4000] == s[..4000] && r[4000..] == "...[TRUNCATED]"
  }

  /** How a value is logged at a level; an object is `within` if it lies on its own path. */
  predicate IsLoggedAs(h: Heap, v: Value, level: nat, within: bool, j: Json) {
    match v
    case Null => j == Json.Null
    case Undefined => j == Json.Null
    case Bool(b) => j == Json.Bool(b)
    case Num(n) => j == Json.Num(n)
    case Str(s) => j.Str? && IsCut(s, j.s)
    case _ =>
      if level >= 6 then j == Json.Str("[MAX_DEPTH_REACHED]")
      else
        match v
        case Date(iso) => j == Json.Str(iso)
        case BigInt(digits) => j == Json.Str(digits)
        case Buffer(text) => j.Str? && IsCut(text, j.s)
        case Symbol(Some(text)) => j.Str? && IsCut(text, j.s)
        case Symbol(None) => j == Json.Str("[SYMBOL]")
        case Function => j == Json.Str("[FUNCTION]")
        case Ref(a) => IsNodeLoggedAs(Get(h, a), within, j)
  }

  /** Containers keep their size, their order and, if objects, their keys. */
  predicate IsNodeLoggedAs(n: Node, within: bool, j: Json) {
    match n
    case Array(items) => j.Arr? && |j.items| == |items|
    case Object(entries, _) =>
      if within then j == Json.Str("[CIRCULAR_REFERENCE]")
      else j.Obj? && |j.fields| == |entries| && forall i :: 0 <= i < |entries| ==> j.fields[i].key == entries[i].key
  }

  lemma CutIsTruncate(s: string, r: string)
    ensures IsCut(s, r) <==> r == Truncate(s)
  {
    if |s| > MAX_STRING_LENGTH {
      assert Truncate(s)[..MAX_STRING_LENGTH] == s[..MAX_STRING_LENGTH];
      assert Truncate(s)[MAX_STRING_LENGTH..] == TRUNCATED_SUFFIX;
      if IsCut(s, r) {
        assert r == r[..4000] + r[4000..];
      }
    }
  }

  lemma ValueIsLogged(h: Heap, v: Value, depth: nat, open: set<Address>)
    requires depth <= MAX_OBJECT_DEPTH
    ensures IsLoggedAs(h, v, depth, v.Ref? && v.address in open, Sanitize(h, v, depth, open))
  {
    match v
    case Str(s) => CutIsTruncate(s, Truncate(s));
    case Buffer(text) => CutIsTruncate(text, Truncate(text));
    case Symbol(Some(text)) => CutIsTruncate(text, Truncate(text));
    case Symbol(None) => CutIsTruncate("[SYMBOL]", Truncate("[SYMBOL]"));
    case Ref(a) =>
      if depth < MAX_OBJECT_DEPTH && Get(h, a).Object? {
        CopiedObject(h, a, depth, open);
      }
    case _ =>
  }

  /**
   The log of a graph, at every path: each value reached is logged as its kind asks for, a redacted entry by its
   marker, and there is nothing where the path leads nowhere or deeper than level six.
   */
  lemma LogSaysIt(h: Heap, v: Value, path: seq<nat>)
    ensures var logged := At(Sanitize(h, v, 0, {}), path);
      if |path| > 6 then logged == None
      else
        match Walk(h, v, path, {})
        case Reaches(w, _) =>
          var within := w.Ref? && exists k :: 0 <= k < |path| && Passes(h, v, path[..k], {}, w.address);
          logged.Some? && IsLoggedAs(h, w, |path|, within, logged.value)
        case Redacted => logged == Some(Json.Str("[REDACTED]"))
        case Nowhere => logged == None
  {
    PathTheorem(h, v, 0, {}, path);
    var end := Walk(h, v, path, {});
    if |path| <= 6 && end.Reaches? {
      ValueIsLogged(h, end.value, |path|, end.open);
      if end.value.Ref? {
        OpenOnThePath(h, v, path, {}, end.value.address);
      }
    }
  }

  /** Two strings are logged alike exactly if they are equal, or both too long and equal as far as they are kept. */
  lemma LoggedAlikeIff(s: string, t: string)
    ensures Sanitize(map[], Value.Str(s), 0, {}) == Sanitize(map[], Value.Str(t), 0, {})
      <==> s == t || (|s| > 4000 && |t| > 4000 && s[..4000] == t[..4000])
  {
    CutIsTruncate(s, Truncate(s));
    CutIsTruncate(t, Truncate(t));
    if |s| > 4000 && |t| > 4000 && s[..4000] == t[..4000] {
      CutIsTruncate(s, Truncate(t));
    }
  }

  // ----- What the strings of the output look like -----

  /** Every string value of the output satisfies `good`. */
  ghost predicate AllStrings(j: Json, good: string -> bool) {
    forall path :: StringAt(j, path, good)
  }

  predicate StringAt(j: Json, path: seq<nat>, good: string -> bool) {
    At(j, path).Some? && At(j, path).value.Str? ==> good(At(j, path).value.s)
  }

  /** Every big integer reached above the depth limit, outside redacted entries, prints as a good string. */
  ghost predicate BigIntsPrint(h: Heap, v: Value, good: string -> bool) {
    forall path | |path| < MAX_OBJECT_DEPTH :: BigIntPrints(Walk(h, v, path, {}), good)
  }

  predicate BigIntPrints(end: End, good: string -> bool) {
    end.Reaches? && end.value.BigInt? ==> good(end.value.digits)
  }

  lemma StringIsGood(h: Heap, v: Value, depth: nat, open: set<Address>, good: string -> bool)
    requires depth <= MAX_OBJECT_DEPTH
    requires forall s :: good(Truncate(s))
    requires depth < MAX_OBJECT_DEPTH ==> BigIntPrints(Reaches(v, open), good)
    ensures Sanitize(h, v, depth, open).Str? ==> good(Sanitize(h, v, depth, open).s)
  {
    if Sanitize(h, v, depth, open).Str? && (v.BigInt? ==> depth == MAX_OBJECT_DEPTH) {
      var s := Sanitize(h, v, depth, open).s;
      if |s| <= MAX_STRING_LENGTH {
        assert Truncate(s) == s;
      }
    }
  }

  lemma OutputAtPath(h: Heap, v: Value, path: seq<nat>, good: string -> bool)
    requires forall s :: good(Truncate(s))
    requires |path| < MAX_OBJECT_DEPTH ==> BigIntPrints(Walk(h, v, path, {}), good)
    ensures StringAt(Sanitize(h, v, 0, {}), path, good)
  {
    PathTheorem(h, v, 0, {}, path);
    match Walk(h, v, path, {})
    case Reaches(w, o) =>
      if |path| <= MAX_OBJECT_DEPTH {
        StringIsGood(h, w, |path|, o, good);
      }
    case _ => assert good(Truncate(REDACTED));
  }

  /** What holds of truncated strings holds of the whole output, unless a big integer breaks it. */
  lemma StringsOfTheOutput(h: Heap, v: Value, good: string -> bool)
    requires forall s :: good(Truncate(s))
    ensures AllStrings(Sanitize(h, v, 0, {}), good) <==> BigIntsPrint(h, v, good)
  {
    var out := Sanitize(h, v, 0, {});
    if AllStrings(out, good) {
      forall path | |path| < MAX_OBJECT_DEPTH ensures BigIntPrints(Walk(h, v, path, {}), good) {
        PathTheorem(h, v, 0, {}, path);
        assert StringAt(out, path, good);
      }
    }
    if BigIntsPrint(h, v, good) {
      forall path ensures StringAt(out, path, good) {
        OutputAtPath(h, v, path, good);
      }
    }
  }

  /**
   Big integers are printed but not truncated, so the bound of 4014 characters on every string value holds
   exactly when no big integer reached prints longer than that.
   */
  lemma StringsAreBoundedIff(h: Heap, v: Value)
    ensures AllStrings(Sanitize(h, v, 0, {}), Bounded) <==> BigIntsPrint(h, v, Bounded)
  {
    StringsOfTheOutput(h, v, Bounded);
  }

  predicate Bounded(s: string) {
    |s| <= LONGEST
  }

  /** A number of five thousand nines comes through whole. */
  lemma LongBigIntShows(digits: Digits)
    requires digits == seq(5000, i => '9')
    ensures !AllStrings(Sanitize(map[], BigInt(digits), 0, {}), Bounded)
  {
    assert !StringAt(Sanitize(map[], BigInt(digits), 0, {}), [], Bounded);
  }

  // ----- Sanitizing the output again -----

  /** `v` is the JSON tree `j`, laid out on the heap in any way. */
  ghost predicate Represents(h: Heap, v: Value, j: Json)
    decreases j
  {
    match j
    case Null => v.Null?
    case Bool(b) => v == Value.Bool(b)
    case Num(n) => v == Value.Num(n)
    case Str(s) => v == Value.Str(s)
    case Arr(items) =>
      && v.Ref? && Get(h, v.address).Array?
      && var values := Get(h, v.address).items;
      && |values| == |items| && forall i :: 0 <= i < |items| ==> Represents(h, values[i], items[i])
    case Obj(fields) =>
      && v.Ref? && Get(h, v.address).Object?
      && var entries := Get(h, v.address).entries;
      && |entries| == |fields|
      && forall i :: 0 <= i < |fields| ==>
        entries[i].key == fields[i].key && Represents(h, entries[i].value, fields[i].value)
  }

  lemma {:induction false} RepresentsOne(h: Heap, v: Value, j: Json, k: Json)
    requires Represents(h, v, j) && Represents(h, v, k)
    ensures j == k
    decreases j
  {
    if j.Arr? {
      forall i | 0 <= i < |j.items| ensures j.items[i] == k.items[i] {
        RepresentsOne(h, Get(h, v.address).items[i], j.items[i], k.items[i]);
      }
    } else if j.Obj? {
      forall i | 0 <= i < |j.fields| ensures j.fields[i] == k.fields[i] {
        RepresentsOne(h, Get(h, v.address).entries[i].value, j.fields[i].value, k.fields[i].value);
      }
    }
  }

  /** The shape every output has: shallow enough, and the redaction marker under every sensitive key. */
  predicate Sanitized(j: Json, depth: nat) {
    match j
    case Arr(items) => depth < MAX_OBJECT_DEPTH && forall i :: 0 <= i < |items| ==> Sanitized(items[i], depth + 1)
    case Obj(fields) =>
      depth < MAX_OBJECT_DEPTH &&
      forall i :: 0 <= i < |fields| ==>
        if ShouldRedact(fields[i].key) then fields[i].value == Json.Str(REDACTED)
        else Sanitized(fields[i].value, depth + 1)
    case _ => true
  }

  lemma {:induction false} OutputIsSanitized(h: Heap, v: Value, depth: nat, open: set<Address>)
    requires depth <= MAX_OBJECT_DEPTH
    ensures Sanitized(Sanitize(h, v, depth, open), depth)
    decreases MAX_OBJECT_DEPTH - depth
  {
    if v.Ref? && depth < MAX_OBJECT_DEPTH {
      match Get(h, v.address)
      case Array(items) =>
        forall i | 0 <= i < |items| ensures Sanitized(Sanitize(h, items[i], depth + 1, open), depth + 1) {
          OutputIsSanitized(h, items[i], depth + 1, open);
        }
      case Object(entries, _) =>
        CopiedObject(h, v.address, depth, open);
        var inside := open + {v.address};
        forall i | 0 <= i < |entries|
          ensures ShouldRedact(entries[i].key)
            || Sanitized(SanitizeEntry(h, entries[i], depth + 1, inside).value, depth + 1)
        {
          OutputIsSanitized(h, entries[i].value, depth + 1, inside);
        }
    }
  }

  predicate Unchanged(s: string) {
    Truncate(s) == s
  }

  predicate Stable(j: Json) {
    match j
    case Str(s) => Unchanged(s)
    case Arr(items) => forall i :: 0 <= i < |items| ==> Stable(items[i])
    case Obj(fields) => forall i :: 0 <= i < |fields| ==> Stable(fields[i].value)
    case _ => true
  }

  lemma {:induction false} StableAt(j: Json, path: seq<nat>)
    requires Stable(j)
    ensures StringAt(j, path, Unchanged)
    decreases |path|
  {
    if path != [] && At(j, path).Some? {
      StableAt(if j.Arr? then j.items[path[0]] else j.fields[path[0]].value, path[1..]);
    }
  }

  lemma StringsOfAPart(j: Json, i: nat, part: Json, good: string -> bool)
    requires AllStrings(j, good)
    requires At(j, [i]) == Some(part)
    ensures AllStrings(part, good)
  {
    forall path ensures StringAt(part, path, good) {
      assert ([i] + path)[1..] == path;
      assert At(j, [i] + path) == At(part, path);
      assert StringAt(j, [i] + path, good);
    }
  }

  lemma {:induction false} StableIffUnchanged(j: Json)
    ensures Stable(j) <==> AllStrings(j, Unchanged)
  {
    if Stable(j) {
      forall path ensures StringAt(j, path, Unchanged) {
        StableAt(j, path);
      }
    }
    if AllStrings(j, Unchanged) {
      match j
      case Arr(items) =>
        forall i: nat | i < |items| ensures Stable(items[i]) {
          assert At(j, [i]) == Some(items[i]);
          StringsOfAPart(j, i, items[i], Unchanged);
          StableIffUnchanged(items[i]);
        }
      case Obj(fields) =>
        forall i: nat | i < |fields| ensures Stable(fields[i].value) {
          assert At(j, [i]) == Some(fields[i].value);
          StringsOfAPart(j, i, fields[i].value, Unchanged);
          StableIffUnchanged(fields[i].value);
        }
      case _ => assert StringAt(j, [], Unchanged);
    }
  }

  /** Every open object stands for a tree that properly contains `j`, so `j` cannot meet it again. */
  ghost predicate Encloses(h: Heap, open: set<Address>, j: Json) {
    forall a, k :: a in open && Represents(h, Ref(a), k) ==> j < k
  }

  lemma EnclosesChild(h: Heap, open: set<Address>, j: Json, a: Address, child: Json)
    requires Encloses(h, open, j) && Represents(h, Ref(a), j) && child < j
    ensures Encloses(h, open, child) && Encloses(h, open + {a}, child)
  {
    forall b, k | b in open + {a} && Represents(h, Ref(b), k) ensures child < k {
      if b == a {
        RepresentsOne(h, Ref(a), j, k);
      }
    }
  }

  lemma {:induction false} Resanitized(h: Heap, v: Value, j: Json, depth: nat, open: set<Address>)
    requires depth <= MAX_OBJECT_DEPTH && Sanitized(j, depth)
    requires Represents(h, v, j) && Encloses(h, open, j)
    ensures Sanitize(h, v, depth, open) == j <==> Stable(j)
    decreases j
  {
    match j
    case Arr(items) =>
      var values := Get(h, v.address).items;
      forall i | 0 <= i < |items| ensures Sanitize(h, values[i], depth + 1, open) == items[i] <==> Stable(items[i]) {
        EnclosesChild(h, open, j, v.address, items[i]);
        Resanitized(h, values[i], items[i], depth + 1, open);
      }
    case Obj(fields) =>
      assert v.address !in open;
      var entries := Get(h, v.address).entries;
      forall i | 0 <= i < |fields|
        ensures SanitizeEntry(h, entries[i], depth + 1, open + {v.address}) == fields[i] <==> Stable(fields[i].value)
      {
        if !ShouldRedact(fields[i].key) {
          EnclosesChild(h, open, j, v.address, fields[i].value);
          Resanitized(h, entries[i].value, fields[i].value, depth + 1, open + {v.address});
        }
      }
    case _ =>
  }

  /**
   Sanitizing an output, however it is laid out on the heap, gives the same output again exactly when every
   big integer reached prints in at most 4000 characters; the cut strings themselves survive a second cut.
   */
  lemma SanitizingIsIdempotentIff(h: Heap, v: Value, h': Heap, v': Value)
    requires Represents(h', v', Sanitize(h, v, 0, {}))
    ensures Sanitize(h', v', 0, {}) == Sanitize(h, v, 0, {})
      <==> BigIntsPrint(h, v, Short)
  {
    var out := Sanitize(h, v, 0, {});
    OutputIsSanitized(h, v, 0, {});
    Resanitized(h', v', out, 0, {});
    StableIffUnchanged(out);
    StringsUnchangedIff(h, v);
  }

  lemma StringsUnchangedIff(h: Heap, v: Value)
    ensures AllStrings(Sanitize(h, v, 0, {}), Unchanged) <==> BigIntsPrint(h, v, Short)
  {
    forall s ensures Unchanged(Truncate(s)) {
      TruncatedIsUnchanged(s);
    }
    StringsOfTheOutput(h, v, Unchanged);
    forall digits: Digits ensures Unchanged(digits) <==> Short(digits) {
      LongDigitsChange(digits);
    }
    SamePrints(h, v, Unchanged, Short);
    SamePrints(h, v, Short, Unchanged);
  }

  predicate Short(s: string) {
    |s| <= MAX_STRING_LENGTH
  }

  lemma SamePrints(h: Heap, v: Value, good: string -> bool, fine: string -> bool)
    requires forall digits: Digits :: good(digits) ==> fine(digits)
    ensures BigIntsPrint(h, v, good) ==> BigIntsPrint(h, v, fine)
  {
    if BigIntsPrint(h, v, good) {
      forall path | |path| < MAX_OBJECT_DEPTH ensures BigIntPrints(Walk(h, v, path, {}), fine) {
        assert BigIntPrints(Walk(h, v, path, {}), good);
      }
    }
  }

  lemma TruncatedIsUnchanged(s: string)
    ensures Truncate(Truncate(s)) == Truncate(s)
  {
    if |s| > MAX_STRING_LENGTH {
      assert Truncate(s)[..MAX_STRING_LENGTH] == s[..MAX_STRING_LENGTH];
    }
  }

  lemma LongDigitsChange(digits: Digits)
    ensures Unchanged(digits) <==> |digits| <= MAX_STRING_LENGTH
  {
    if |digits| > MAX_STRING_LENGTH {
      assert Truncate(digits)[MAX_STRING_LENGTH] == '.';
    }
  }

  // ----- What the output does not depend on -----

  /** Two nodes that differ at most in values under redacted keys and in what they say as errors. */
  predicate AgreeOutsideRedacted(m: Node, n: Node) {
    match (m, n)
    case (Array(_), Array(_)) => m == n
    case (Object(p, _), Object(q, _)) =>
      |p| == |q| && forall i :: 0 <= i < |p| ==>
        p[i].key == q[i].key && (!ShouldRedact(p[i].key) ==> p[i].value == q[i].value)
    case _ => false
  }

  predicate Inside(v: Value, region: set<Address>) {
    v.Ref? ==> v.address in region
  }

  /** Items and unredacted entries of the node stay in the region. */
  predicate StaysInside(n: Node, region: set<Address>) {
    match n
    case Array(items) => forall i :: 0 <= i < |items| ==> Inside(items[i], region)
    case Object(entries, _) =>
      forall i :: 0 <= i < |entries| && !ShouldRedact(entries[i].key) ==> Inside(entries[i].value, region)
  }

  /** The graphs agree outside redacted entries on everything reached from the region without entering one. */
  ghost predicate LookAlike(h: Heap, k: Heap, region: set<Address>) {
    forall a :: a in region ==> AgreeOutsideRedacted(Get(h, a), Get(k, a)) && StaysInside(Get(h, a), region)
  }

  /**
   Nothing stored under a redacted key can be told from the output, whole objects included, and neither can an
   error's name and message.
   */
  lemma {:induction false} RedactedValuesDoNotShow(
    h: Heap, k: Heap, region: set<Address>, v: Value, depth: nat, open: set<Address>)
    requires depth <= MAX_OBJECT_DEPTH
    requires Inside(v, region) && LookAlike(h, k, region)
    ensures Sanitize(h, v, depth, open) == Sanitize(k, v, depth, open)
    decreases MAX_OBJECT_DEPTH - depth
  {
    if v.Ref? && depth < MAX_OBJECT_DEPTH {
      assert AgreeOutsideRedacted(Get(h, v.address), Get(k, v.address)) && StaysInside(Get(h, v.address), region);
      match Get(h, v.address)
      case Array(items) =>
        forall i | 0 <= i < |items|
          ensures Sanitize(h, items[i], depth + 1, open) == Sanitize(k, items[i], depth + 1, open)
        {
          RedactedValuesDoNotShow(h, k, region, items[i], depth + 1, open);
        }
        assert SanitizeItems(h, items, depth + 1, open) == SanitizeItems(k, items, depth + 1, open);
      case Object(entries, _) =>
        var inside, others := open + {v.address}, Get(k, v.address).entries;
        forall i | 0 <= i < |entries|
          ensures SanitizeEntry(h, entries[i], depth + 1, inside) == SanitizeEntry(k, others[i], depth + 1, inside)
        {
          if !ShouldRedact(entries[i].key) {
            RedactedValuesDoNotShow(h, k, region, entries[i].value, depth + 1, inside);
          }
        }
        CopiedObject(h, v.address, depth, open);
        CopiedObject(k, v.address, depth, open);
        assert SanitizeEntries(h, entries, depth + 1, inside) == SanitizeEntries(k, others, depth + 1, inside);
    }
  }

  /** No object gets past the tests for arrays and plain objects, so the branch for errors after them is dead. */
  lemma ErrorBranchIsDead(h: Heap, a: Address, depth: nat, open: set<Address>)
    requires depth < MAX_OBJECT_DEPTH
    ensures IsArray(Get(h, a)) || IsPlainObject(Get(h, a))
    ensures IsError(Get(h, a)) ==>
      Sanitize(h, Ref(a), depth, open) ==
        if a in open then Json.Str(CIRCULAR) else Obj(SanitizeEntries(h, Get(h, a).entries, depth + 1, open + {a}))
  {
    if IsError(Get(h, a)) {
      CopiedObject(h, a, depth, open);
    }
  }

  /** The own property of the error under this key, if it has one that is enumerable, holds this text. */
  predicate Holds(entries: seq<Entry>, key: string, text: string) {
    forall i :: 0 <= i < |entries| && entries[i].key == key ==> entries[i].value == Value.Str(text)
  }

  predicate HasKey(entries: seq<Entry>, key: string) {
    exists i :: 0 <= i < |entries| && entries[i].key == key
  }

  lemma ListedKeysStart(key: string)
    requires key in SENSITIVE_KEYS
    ensures key != "" && key[0] != 'm' && key[0] != 'n'
  {
  }

  /** The keys of an error's name and message are among those that pass. */
  lemma KeyPasses(key: string)
    requires OnlyLetters(key) && key != "" && (key[0] == 'm' || key[0] == 'n')
    ensures !ShouldRedact(key)
  {
    LettersOfLetters(key);
    if ShouldRedact(key) {
      ListedKeysStart(key);
    }
  }

  lemma EntryShowsIff(h: Heap, a: Address, depth: nat, open: set<Address>, key: string, text: string)
    requires depth < MAX_OBJECT_DEPTH && a !in open && Get(h, a).Object?
    requires !ShouldRedact(key) && Holds(Get(h, a).entries, key, text)
    ensures Sanitize(h, Ref(a), depth, open).Obj?
    ensures Field(key, Json.Str(Truncate(text))) in Sanitize(h, Ref(a), depth, open).fields
      <==> HasKey(Get(h, a).entries, key)
  {
    var entries := Get(h, a).entries;
    var copy := SanitizeEntries(h, entries, depth + 1, open + {a});
    CopiedObject(h, a, depth, open);
    if i :| 0 <= i < |entries| && entries[i].key == key {
      assert Sanitize(h, entries[i].value, depth + 1, open + {a}) == Json.Str(Truncate(text));
      assert copy[i] == SanitizeEntry(h, entries[i], depth + 1, open + {a});
      assert copy[i] in copy;
    }
    if Field(key, Json.Str(Truncate(text))) in copy {
      var i :| 0 <= i < |copy| && copy[i] == Field(key, Json.Str(Truncate(text)));
      assert copy[i] == SanitizeEntry(h, entries[i], depth + 1, open + {a});
      assert entries[i].key == key;
    }
  }

  /**
   Above the depth limit, and unless it is its own ancestor, an error is logged with its name exactly if the name
   is an own enumerable property of it, and likewise with its message; neither key is redacted.
   */
  lemma ErrorShowsIff(h: Heap, a: Address, depth: nat, open: set<Address>)
    requires depth < MAX_OBJECT_DEPTH && a !in open && IsError(Get(h, a))
    requires Holds(Get(h, a).entries, "name", NameOf(Get(h, a)))
    requires Holds(Get(h, a).entries, "message", MessageOf(Get(h, a)))
    ensures Sanitize(h, Ref(a), depth, open).Obj?
    ensures Field("name", Json.Str(Truncate(NameOf(Get(h, a))))) in Sanitize(h, Ref(a), depth, open).fields
      <==> HasKey(Get(h, a).entries, "name")
    ensures Field("message", Json.Str(Truncate(MessageOf(Get(h, a))))) in Sanitize(h, Ref(a), depth, open).fields
      <==> HasKey(Get(h, a).entries, "message")
  {
    KeyPasses("name");
    KeyPasses("message");
    EntryShowsIff(h, a, depth, open, "name", NameOf(Get(h, a)));
    EntryShowsIff(h, a, depth, open, "message", MessageOf(Get(h, a)));
  }

  /** An error whose class assigns the name, as this system's own do: the name is logged, the message is not. */
  lemma NamedErrorLosesItsMessage(h: Heap, a: Address, name: string, message: string)
    requires Get(h, a) == Object([Entry("name", Value.Str(name))], Some(ErrorText(name, message)))
    ensures Sanitize(h, Ref(a), 0, {}) == Obj([Field("name", Json.Str(Truncate(name)))])
    ensures Sanitize(h, Ref(a), 0, {}) != NameAndMessage(Get(h, a))
  {
    KeyPasses("name");
    CopiedObject(h, a, 0, {});
    var entries := Get(h, a).entries;
    assert SanitizeEntries(h, entries, 1, {a})[0] == SanitizeEntry(h, entries[0], 1, {a});
    assert SanitizeEntries(h, entries, 1, {a}) == [Field("name", Json.Str(Truncate(name)))];
  }

  /** A graph without cycles: some rank falls along every reference. */
  ghost predicate Acyclic(h: Heap, rank: Address -> nat) {
    forall a, i :: 0 <= i < |Children(Get(h, a))| ==> Below(Children(Get(h, a))[i], rank, rank(a))
  }

  predicate Below(v: Value, rank: Address -> nat, bound: nat) {
    v.Ref? ==> rank(v.address) < bound
  }

  lemma {:induction false} OpenIsIrrelevant(
    h: Heap, rank: Address -> nat, v: Value, depth: nat, open: set<Address>, other: set<Address>)
    requires depth <= MAX_OBJECT_DEPTH && Acyclic(h, rank)
    requires forall a :: a in open + other ==> Below(v, rank, rank(a))
    ensures Sanitize(h, v, depth, open) == Sanitize(h, v, depth, other)
    decreases MAX_OBJECT_DEPTH - depth
  {
    if v.Ref? && depth < MAX_OBJECT_DEPTH {
      var a := v.address;
      assert a !in open + other;
      match Get(h, a)
      case Array(items) =>
        forall i | 0 <= i < |items|
          ensures Sanitize(h, items[i], depth + 1, open) == Sanitize(h, items[i], depth + 1, other)
        {
          assert Below(Children(Get(h, a))[i], rank, rank(a));
          OpenIsIrrelevant(h, rank, items[i], depth + 1, open, other);
        }
      case Object(entries, _) =>
        forall i | 0 <= i < |entries|
          ensures SanitizeEntry(h, entries[i], depth + 1, open + {a})
            == SanitizeEntry(h, entries[i], depth + 1, other + {a})
        {
          assert Below(Children(Get(h, a))[i], rank, rank(a));
          OpenIsIrrelevant(h, rank, entries[i].value, depth + 1, open + {a}, other + {a});
        }
    }
  }

  lemma {:induction false} OpenOutranks(
    h: Heap, rank: Address -> nat, v: Value, path: seq<nat>, open: set<Address>, a: Address)
    requires Acyclic(h, rank) && (forall b :: b in open ==> Below(v, rank, rank(b)))
    requires Walk(h, v, path, open).Reaches? && a in Walk(h, v, path, open).open
    ensures Below(Walk(h, v, path, open).value, rank, rank(a))
    decreases |path|
  {
    if path == [] {
    } else {
      var next := Children(Get(h, v.address))[path[0]];
      assert Below(next, rank, rank(v.address));
      assert open + {} == open;
      OpenOutranks(h, rank, next, path[1..], open + if Get(h, v.address).Object? then {v.address} else {}, a);
    }
  }

  /**
   Sharing is not mistaken for a cycle: in a graph without cycles, a value reached by two paths of one length
   is copied twice and both copies are what it would be at the root of that depth.
   */
  lemma SharedValuesAreExpanded(h: Heap, rank: Address -> nat, v: Value, path: seq<nat>)
    requires Acyclic(h, rank) && |path| <= MAX_OBJECT_DEPTH && Walk(h, v, path, {}).Reaches?
    ensures At(Sanitize(h, v, 0, {}), path) == Some(Sanitize(h, Walk(h, v, path, {}).value, |path|, {}))
  {
    PathTheorem(h, v, 0, {}, path);
    var end := Walk(h, v, path, {});
    forall a | a in end.open ensures Below(end.value, rank, rank(a)) {
      OpenOutranks(h, rank, v, path, {}, a);
    }
    OpenIsIrrelevant(h, rank, end.value, |path|, end.open, {});
  }
}
