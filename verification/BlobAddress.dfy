/** The map from logical blob names to URIs and filenames.

    Text is a sequence of code points, and a filesystem budget counts the bytes of their
    UTF-8 form. The digest is a parameter: all that matters here is that it gives 64
    lowercase hexadecimal digits.
 */
module BlobAddress {
  import opened Options

  const SCHEME := "ci-blob://"
  const MARKER := "~ci-key-v1"
  const LOCK := ".ci-blob-retention.lock"
  const METADATA := ".ci-blob-retention"
  const DOMAIN := "ci-blob-event-key:v1\0"
  const JSON := ".json"
  const BLOB := ".blob"
  const NAME_MAX: nat := 255
  const MAX_SESSION_BYTES: nat := 255
  const MAX_KEY_BYTES: nat := 242
  const MAX_PHYSICAL_KEY_BYTES: nat := 250
  const FOLD_DIGITS: nat := 16

  // ---------------------------------------------------------------- UTF-8 budgets

  function Width(c: char): (n: nat)
    ensures 1 <= n <= 4
  {
    var p := c as int;
    if p < 0x80 then 1 else if p < 0x800 then 2 else if p < 0x1_0000 then 3 else 4
  }

  function Bytes(s: string): nat {
    if s == [] then 0 else Width(s[0]) + Bytes(s[1..])
  }

  lemma {:induction false} BytesConcat(s: string, t: string)
    ensures Bytes(s + t) == Bytes(s) + Bytes(t)
  {
    if s == [] {
      assert s + t == t;
    } else {
      assert (s + t)[1..] == s[1..] + t;
      BytesConcat(s[1..], t);
    }
  }

  /** The longest run of whole code points from the front that fits the budget. */
  function Fitting(s: string, budget: nat): (r: string)
    ensures r <= s && Bytes(r) <= budget
    ensures |r| < |s| ==> Bytes(r) + Width(s[|r|]) > budget
  {
    if s == [] || Width(s[0]) > budget then []
    else
      var rest := Fitting(s[1..], budget - Width(s[0]));
      assert ([s[0]] + rest)[1..] == rest;
      [s[0]] + rest
  }

  /** How many code points make up the first `n` bytes, if those bytes end on a boundary. */
  function PointsIn(s: string, n: nat): (r: Option<nat>)
    ensures r.Some? ==> r.value <= |s| && Bytes(s[..r.value]) == n
  {
    if n == 0 then
      assert s[..0] == [];
      Some(0)
    else if s == [] || Width(s[0]) > n then None
    else
      match PointsIn(s[1..], n - Width(s[0]))
      case None => None
      case Some(k) =>
        assert s[..k + 1][1..] == s[1..][..k];
        Some(k + 1)
  }

  lemma {:induction false} FittingEndsOnBoundary(s: string, budget: nat)
    ensures PointsIn(s, Bytes(Fitting(s, budget))) == Some(|Fitting(s, budget)|)
  {
    if s != [] && Width(s[0]) <= budget {
      FittingEndsOnBoundary(s[1..], budget - Width(s[0]));
      assert Fitting(s, budget)[1..] == Fitting(s[1..], budget - Width(s[0]));
    }
  }

  /** No boundary lies between the end of the fitting prefix and the budget. */
  lemma {:induction false} NoLaterBoundary(s: string, budget: nat, n: nat)
    requires Bytes(Fitting(s, budget)) < n <= budget
    ensures PointsIn(s, n) == None
  {
    if s != [] && Width(s[0]) <= budget {
      var rest := Fitting(s[1..], budget - Width(s[0]));
      assert Fitting(s, budget)[1..] == rest;
      if Width(s[0]) <= n {
        NoLaterBoundary(s[1..], budget - Width(s[0]), n - Width(s[0]));
      }
    }
  }

  /** Cut the encoding at the budget, then drop bytes until what is left decodes. */
  method Truncate(s: string, budget: nat) returns (prefix: string)
    requires budget <= Bytes(s)
    ensures prefix == Fitting(s, budget)
  {
    var cut := budget;
    FittingEndsOnBoundary(s, budget);
    while cut > 0 && PointsIn(s, cut).None?
      invariant Bytes(Fitting(s, budget)) <= cut <= budget
      invariant forall n :: cut < n <= budget ==> PointsIn(s, n).None?
    {
      cut := cut - 1;
    }
    if cut > Bytes(Fitting(s, budget)) {
      NoLaterBoundary(s, budget, cut);
    }
    prefix := if cut == 0 then [] else s[..PointsIn(s, cut).value];
    if cut == 0 {
      assert |Fitting(s, budget)| == 0;
    }
  }

  // ---------------------------------------------------------------- folding

  predicate HexDigit(c: char) { '0' <= c <= '9' || 'a' <= c <= 'f' }

  predicate Hex64(s: string) { |s| == 64 && forall i :: 0 <= i < |s| ==> HexDigit(s[i]) }

  ghost predicate Digest(h: string -> string) { forall s :: Hex64(h(s)) }

  function Safe(c: char): char { if c == '/' || c == '\\' || c == '\0' then '_' else c }

  function Sanitized(s: string): (r: string)
    ensures |r| == |s| && forall i :: 0 <= i < |s| ==> r[i] == Safe(s[i])
  {
    seq(|s|, i requires 0 <= i < |s| => Safe(s[i]))
  }

  lemma {:induction false} SanitizedBytes(s: string)
    ensures Bytes(Sanitized(s)) == Bytes(s)
  {
    if s == [] {
    } else {
      assert Sanitized(s)[1..] == Sanitized(s[1..]);
      SanitizedBytes(s[1..]);
    }
  }

  function Fold(h: string -> string, value: string, budget: nat): string
    requires Digest(h) && budget > FOLD_DIGITS
  {
    if Bytes(value) <= budget then value
    else
      var d := h(value);
      assert Hex64(d);
      Sanitized(Fitting(value, budget - FOLD_DIGITS - 1)) + "~" + d[..FOLD_DIGITS]
  }

  lemma {:induction false} AsciiBytes(s: string)
    requires forall i :: 0 <= i < |s| ==> s[i] as int < 0x80
    ensures Bytes(s) == |s|
  {
    if s == [] {
    } else {
      AsciiBytes(s[1..]);
    }
  }

  /** A folded name fits its budget, so folding twice is folding once. */
  lemma FoldFits(h: string -> string, value: string, budget: nat)
    requires Digest(h) && budget > FOLD_DIGITS
    ensures Bytes(Fold(h, value, budget)) <= budget
    ensures Fold(h, Fold(h, value, budget), budget) == Fold(h, value, budget)
  {
    if Bytes(value) > budget {
      var prefix := Fitting(value, budget - FOLD_DIGITS - 1);
      SanitizedBytes(prefix);
      var suffix := h(value)[..FOLD_DIGITS];
      assert Hex64(h(value));
      AsciiBytes("~" + suffix);
      BytesConcat(Sanitized(prefix), "~" + suffix);
      assert Sanitized(prefix) + "~" + suffix == Sanitized(prefix) + ("~" + suffix);
    }
  }

  /** Two names that are both too long fold alike only if the digests of the whole names
      begin alike, whatever prefix they share. */
  lemma FoldsAlikeOnlyByDigest(h: string -> string, a: string, b: string, budget: nat)
    requires Digest(h) && budget > FOLD_DIGITS && Bytes(a) > budget && Bytes(b) > budget
    requires Fold(h, a, budget) == Fold(h, b, budget)
    ensures h(a)[..FOLD_DIGITS] == h(b)[..FOLD_DIGITS]
  {
    assert Hex64(h(a)) && Hex64(h(b));
    var f, g := Fold(h, a, budget), Fold(h, b, budget);
    assert f[|f| - FOLD_DIGITS..] == h(a)[..FOLD_DIGITS];
    assert g[|g| - FOLD_DIGITS..] == h(b)[..FOLD_DIGITS];
  }

  // ---------------------------------------------------------------- components

  predicate Plain(c: char) { c != '/' && c != '\\' && 32 <= c as int != 127 }

  predicate Reserved(s: string) { s == "" || s == "." || s == ".." || s == LOCK || s == METADATA }

  predicate Component(s: string) {
    !Reserved(s) && forall i :: 0 <= i < |s| ==> Plain(s[i])
  }

  function NoBackslash(s: string): (r: string)
    ensures |r| == |s| && forall i :: 0 <= i < |s| ==> r[i] == if s[i] == '\\' then '_' else s[i]
  {
    seq(|s|, i requires 0 <= i < |s| => if s[i] == '\\' then '_' else s[i])
  }

  /** An ordinary stem as POSIX stores it: names from before the mapping may hold a backslash. */
  predicate OrdinaryStem(s: string) {
    if '\\' in s then Component(NoBackslash(s)) else Component(s)
  }

  lemma StemHasNoSlash(s: string)
    requires OrdinaryStem(s)
    ensures s != "" && '/' !in s
  {
    if '\\' in s {
      forall i | 0 <= i < |s| ensures s[i] != '/' {
        assert Plain(NoBackslash(s)[i]);
      }
    }
  }

  /** Folding keeps a component a component. */
  lemma FoldedComponent(h: string -> string, value: string, budget: nat)
    requires Digest(h) && budget > 64 && Component(value)
    ensures Component(Fold(h, value, budget))
  {
    if Bytes(value) > budget {
      var prefix := Fitting(value, budget - FOLD_DIGITS - 1);
      assert Hex64(h(value));
      var folded := Fold(h, value, budget);
      assert folded == Sanitized(prefix) + "~" + h(value)[..FOLD_DIGITS];
      assert folded[|folded| - 17] == '~' && |folded| >= 17;
      assert LOCK[|LOCK| - 17] != '~';
      forall i | 0 <= i < |folded| ensures Plain(folded[i]) {
        if i < |prefix| {
          assert prefix[i] == value[i];
        }
      }
    }
  }

  // ---------------------------------------------------------------- addresses

  datatype Address = Address(session: string, name: string, mapped: bool)

  predicate Valid(a: Address) {
    Component(a.session) && if a.mapped then Hex64(a.name) else OrdinaryStem(a.name)
  }

  function Checked(a: Address): Option<Address> { if Valid(a) then Some(a) else None }

  function Uri(a: Address): string {
    SCHEME + a.session + "/" + if a.mapped then MARKER + "/" + a.name else a.name
  }

  function Stem(a: Address): string { if a.mapped then MARKER + "~" + a.name else a.name }

  function Filename(a: Address): string { Stem(a) + if a.mapped then BLOB else JSON }

  /** Split at every slash. */
  function Split(s: string): (parts: seq<string>)
    ensures |parts| > 0
  {
    if s == [] then [[]]
    else
      var rest := Split(s[1..]);
      if s[0] == '/' then [[]] + rest else [[s[0]] + rest[0]] + rest[1..]
  }

  function Join(parts: seq<string>): string
    requires |parts| > 0
  {
    if |parts| == 1 then parts[0] else parts[0] + "/" + Join(parts[1..])
  }

  lemma {:induction false} JoinSplit(s: string)
    ensures Join(Split(s)) == s
  {
    if s == [] {
    } else {
      var rest := Split(s[1..]);
      JoinSplit(s[1..]);
      if s[0] == '/' {
        assert Split(s)[1..] == rest;
      } else if |rest| > 1 {
        assert Split(s)[1..] == rest[1..];
        assert s == [s[0]] + s[1..];
      }
    }
  }

  lemma {:induction false} SplitJoin(s: string, t: string)
    requires '/' !in s
    ensures Split(s) == [s]
    ensures Split(s + "/" + t) == [s] + Split(t)
  {
    if s == [] {
      assert s + "/" + t == "/" + t;
      assert ("/" + t)[1..] == t;
    } else {
      SplitJoin(s[1..], t);
      assert (s + "/" + t)[1..] == s[1..] + "/" + t;
      assert s == [s[0]] + s[1..];
    }
  }

  predicate StartsWith(s: string, p: string) { p <= s }

  predicate EndsWith(s: string, p: string) { |p| <= |s| && s[|s| - |p|..] == p }

  function ExactAddress(uri: string): Option<Address> {
    if !StartsWith(uri, SCHEME) then None
    else
      var parts := Split(uri[|SCHEME|..]);
      if |parts| == 2 then Checked(Address(parts[0], parts[1], false))
      else if |parts| == 3 && parts[1] == MARKER then Checked(Address(parts[0], parts[2], true))
      else None
  }

  /** Every address is what its URI parses to, and a URI parses only to an address that
      prints as that URI: parsing and printing are inverse on exactly the valid addresses. */
  lemma UriRoundTrip(a: Address)
    requires Valid(a)
    ensures ExactAddress(Uri(a)) == Some(a)
  {
    var tail := if a.mapped then MARKER + "/" + a.name else a.name;
    assert Uri(a) == SCHEME + (a.session + "/" + tail);
    SplitJoin(a.session, tail);
    SplitTail(a);
  }

  lemma NameHasNoSlash(a: Address)
    requires Valid(a)
    ensures '/' !in a.name
  {
    if a.mapped {
      forall i | 0 <= i < |a.name| ensures a.name[i] != '/' {
        assert HexDigit(a.name[i]);
      }
    } else {
      StemHasNoSlash(a.name);
    }
  }

  lemma SplitTail(a: Address)
    requires Valid(a)
    ensures Split(if a.mapped then MARKER + "/" + a.name else a.name) ==
            if a.mapped then [MARKER, a.name] else [a.name]
  {
    NameHasNoSlash(a);
    SplitJoin(a.name, "");
    if a.mapped {
      SplitJoin(MARKER, a.name);
    }
  }

  lemma ParsedPrintsBack(uri: string)
    requires ExactAddress(uri).Some?
    ensures Valid(ExactAddress(uri).value) && Uri(ExactAddress(uri).value) == uri
  {
    var s := uri[|SCHEME|..];
    var parts := Split(s);
    JoinSplit(s);
    assert uri == SCHEME + s;
    if |parts| == 2 {
      assert parts[1..] == [parts[1]];
      assert s == parts[0] + "/" + parts[1];
    } else {
      assert parts[1..][1..] == [parts[2]];
      assert Join(parts[1..]) == parts[1] + "/" + parts[2];
      assert s == parts[0] + "/" + (MARKER + "/" + parts[2]);
    }
  }

  /** No URI is both an ordinary and a mapped one, and no filename is either. */
  lemma NamespacesDisjoint(a: Address, b: Address)
    requires Valid(a) && Valid(b) && Uri(a) == Uri(b)
    ensures a == b
  {
    UriRoundTrip(a);
    UriRoundTrip(b);
  }

  // ---------------------------------------------------------------- filenames

  /** A mapped filename: the marker, a tilde, 64 digits and the suffix. */
  predicate MappedFilename(f: string) {
    && |f| == |MARKER| + 1 + 64 + |BLOB| && f[..|MARKER|] == MARKER && f[|MARKER|] == '~'
    && Hex64(f[|MARKER| + 1..|MARKER| + 65]) && f[|MARKER| + 65..] == BLOB
  }

  /** None stands for an unknown file, and for an invalid ordinary one, which the scan
      counts as skipped in the same way. */
  function FromFilename(session: string, f: string): Option<Address> {
    if EndsWith(f, JSON) then Checked(Address(session, f[..|f| - |JSON|], false))
    else if MappedFilename(f) then Checked(Address(session, f[|MARKER| + 1..|MARKER| + 65], true))
    else None
  }

  lemma FilenameRoundTrip(a: Address)
    requires Valid(a)
    ensures FromFilename(a.session, Filename(a)) == Some(a)
  {
    var f := Filename(a);
    if a.mapped {
      assert f == MARKER + "~" + a.name + BLOB;
      assert f[|f| - 5..] == BLOB && f[|f| - 4] == 'b';
      assert JSON[1] == 'j';
      assert f[|f| - 5..][1] != JSON[1];
      assert f[..|MARKER|] == MARKER;
      assert f[|MARKER| + 1..|MARKER| + 65] == a.name;
    } else {
      assert f[|f| - 5..] == JSON;
      assert f[..|f| - 5] == a.name;
    }
  }

  lemma RecognisedPrintsBack(session: string, f: string)
    requires FromFilename(session, f).Some?
    ensures var a := FromFilename(session, f).value; Valid(a) && a.session == session && Filename(a) == f
  {
    if EndsWith(f, JSON) {
      assert f == f[..|f| - 5] + JSON;
    } else {
      assert f == f[..|MARKER|] + "~" + f[|MARKER| + 1..|MARKER| + 65] + f[|MARKER| + 65..];
    }
  }

  /** Two addresses share a file only if they are the same address. */
  lemma OneFilePerAddress(a: Address, b: Address)
    requires Valid(a) && Valid(b) && a.session == b.session && Filename(a) == Filename(b)
    ensures a == b
  {
    FilenameRoundTrip(a);
    FilenameRoundTrip(b);
  }

  // ---------------------------------------------------------------- logical names

  function Mapped(h: string -> string, session: string, name: string): Address {
    Address(session, h(DOMAIN + name), true)
  }

  /** Where a logical write name is stored; None where the source refuses the name. */
  function WriteAddress(h: string -> string, session: string, name: string): Option<Address>
    requires Digest(h)
  {
    if !Component(session) || Reserved(name) then None
    else
      var folded := Fold(h, session, MAX_SESSION_BYTES);
      if Component(name) then Checked(Address(folded, Fold(h, name, MAX_KEY_BYTES), false))
      else Checked(Mapped(h, folded, name))
  }

  /** The only refusals are an unsafe session and a reserved name; the session directory, the
      file, and the file's temporary name (13 bytes longer than its stem) all fit NAME_MAX. */
  lemma WriteAddressTotal(h: string -> string, session: string, name: string)
    requires Digest(h)
    ensures WriteAddress(h, session, name).Some? <==> Component(session) && !Reserved(name)
    ensures WriteAddress(h, session, name).Some? ==>
              var a := WriteAddress(h, session, name).value;
              && Valid(a) && (a.mapped <==> !Component(name))
              && Bytes(a.session) <= NAME_MAX && Bytes(Filename(a)) <= NAME_MAX && Bytes(Stem(a)) + 13 <= NAME_MAX
  {
    if Component(session) && !Reserved(name) {
      var folded := Fold(h, session, MAX_SESSION_BYTES);
      FoldedComponent(h, session, MAX_SESSION_BYTES);
      FoldFits(h, session, MAX_SESSION_BYTES);
      assert Hex64(h(DOMAIN + name));
      if Component(name) {
        OrdinaryNameFits(h, folded, name);
      } else {
        MappedNameFits(h(DOMAIN + name), folded);
      }
    }
  }

  lemma OrdinaryNameFits(h: string -> string, session: string, name: string)
    requires Digest(h) && Component(name)
    ensures var a := Address(session, Fold(h, name, MAX_KEY_BYTES), false);
            OrdinaryStem(a.name) && Bytes(Filename(a)) <= NAME_MAX && Bytes(Stem(a)) + 13 <= NAME_MAX
  {
    var stem := Fold(h, name, MAX_KEY_BYTES);
    FoldedComponent(h, name, MAX_KEY_BYTES);
    ComponentIsStem(stem);
    FoldFits(h, name, MAX_KEY_BYTES);
    BytesConcat(stem, JSON);
    AsciiBytes(JSON);
  }

  lemma MappedNameFits(digest: string, session: string)
    requires Hex64(digest)
    ensures var a := Address(session, digest, true);
            Bytes(Filename(a)) <= NAME_MAX && Bytes(Stem(a)) + 13 <= NAME_MAX
  {
    var stem := MARKER + "~" + digest;
    forall i | 0 <= i < |digest| ensures (digest[i] as int) < 0x80 {
      assert HexDigit(digest[i]);
    }
    AsciiBytes(stem);
    AsciiBytes(stem + BLOB);
  }

  lemma ComponentIsStem(s: string)
    requires Component(s)
    ensures OrdinaryStem(s) && '\\' !in s
  {
    forall i | 0 <= i < |s| ensures s[i] != '\\' {
      assert Plain(s[i]);
    }
  }

  function AddOnce(list: seq<Address>, a: Address): seq<Address> { if a in list then list else list + [a] }

  function AddValid(list: seq<Address>, a: Address): seq<Address> { if Valid(a) then AddOnce(list, a) else list }

  /** The ordinary addresses a name may already be stored under: as it is, then folded. */
  function LegacyAddresses(h: string -> string, session: string, name: string): seq<Address>
    requires Digest(h)
  {
    if Reserved(name) then []
    else
      var folded := Fold(h, session, MAX_SESSION_BYTES);
      var exact := if Bytes(name) <= MAX_PHYSICAL_KEY_BYTES then AddValid([], Address(folded, name, false)) else [];
      AddValid(exact, Address(folded, Fold(h, name, MAX_KEY_BYTES), false))
  }

  /** Where a URI is looked for, in order. None where the URI is malformed. */
  function ReadCandidates(h: string -> string, uri: string): Option<seq<Address>>
    requires Digest(h)
  {
    match ExactAddress(uri)
    case None => None
    case Some(a) =>
      if a.mapped then Some([Address(Fold(h, a.session, MAX_SESSION_BYTES), a.name, true)])
      else
        match WriteAddress(h, a.session, a.name)
        case None => None
        case Some(canonical) => Some(AddOnce(LegacyAddresses(h, a.session, a.name), canonical))
  }

  /** A URI that a write returned is looked for at exactly the address that was written. */
  lemma WrittenUriReadsItsAddress(h: string -> string, session: string, name: string)
    requires Digest(h) && WriteAddress(h, session, name).Some?
    ensures ReadCandidates(h, Uri(WriteAddress(h, session, name).value)) ==
            Some([WriteAddress(h, session, name).value])
  {
    var a := WriteAddress(h, session, name).value;
    WriteAddressTotal(h, session, name);
    UriRoundTrip(a);
    FoldFits(h, session, MAX_SESSION_BYTES);
    if !a.mapped {
      FoldFits(h, name, MAX_KEY_BYTES);
      FoldedComponent(h, name, MAX_KEY_BYTES);
      assert Fold(h, a.session, MAX_SESSION_BYTES) == a.session && Fold(h, a.name, MAX_KEY_BYTES) == a.name;
      assert LegacyAddresses(h, a.session, a.name) == [a];
      assert WriteAddress(h, a.session, a.name) == Some(a);
    }
  }

  lemma StemNotReserved(s: string)
    requires OrdinaryStem(s)
    ensures !Reserved(s)
  {
    if '\\' in s {
      forall t | t in ["", ".", "..", LOCK, METADATA] ensures s != t {
        assert forall i :: 0 <= i < |t| ==> t[i] != '\\';
      }
    }
  }

  lemma LegacyStartsExact(h: string -> string, a: Address)
    requires Digest(h) && Valid(a) && !a.mapped
    requires Bytes(a.session) <= MAX_SESSION_BYTES && Bytes(a.name) <= MAX_PHYSICAL_KEY_BYTES && !Reserved(a.name)
    ensures |LegacyAddresses(h, a.session, a.name)| > 0 && LegacyAddresses(h, a.session, a.name)[0] == a
  {
    assert Fold(h, a.session, MAX_SESSION_BYTES) == a.session;
    assert AddValid([], a) == [a];
  }

  /** Whatever can be on the disk is tried first at its own exact address, so what a scan
      lists can be read back. */
  lemma StoredUriIsACandidate(h: string -> string, a: Address)
    requires Digest(h) && Valid(a) && Bytes(a.session) <= MAX_SESSION_BYTES
    requires a.mapped || Bytes(a.name) <= MAX_PHYSICAL_KEY_BYTES
    ensures ReadCandidates(h, Uri(a)).Some? && |ReadCandidates(h, Uri(a)).value| > 0
    ensures ReadCandidates(h, Uri(a)).value[0] == a
  {
    UriRoundTrip(a);
    if !a.mapped {
      StemNotReserved(a.name);
      WriteAddressTotal(h, a.session, a.name);
      LegacyStartsExact(h, a);
    }
  }
}
