/** Writing, reading and expiring blobs: a name once recorded as expired is never brought
    back by a write, and its readers are told that it expired.

    Payload files are kept by directory and filename, as the disk keeps them, so that two
    addresses could in principle meet in one file.
 */
module BlobStore {
  import opened BlobAddress
  import opened Options

  type Payload = string

  datatype Path = Path(session: string, filename: string)

  datatype Store = Store(files: map<Path, Payload>, expired: set<string>)

  datatype WriteResult = Refused | Failed | Returned(uri: string)

  datatype ReadResult = Malformed | Missing | Expired(uri: string) | Found(value: Payload)

  function PathOf(a: Address): Path { Path(a.session, Filename(a)) }

  predicate Has(st: Store, a: Address) { PathOf(a) in st.files }

  // ---------------------------------------------------------------- specification

  /** The first address in the list with a recorded expiry. */
  function FirstExpired(st: Store, list: seq<Address>): (r: Option<Address>)
    ensures r.Some? ==> r.value in list && Uri(r.value) in st.expired
    ensures r.None? ==> forall a :: a in list ==> Uri(a) !in st.expired
  {
    if list == [] then None
    else if Uri(list[0]) in st.expired then Some(list[0])
    else FirstExpired(st, list[1..])
  }

  function FirstPresent(st: Store, list: seq<Address>): (r: Option<Address>)
    ensures r.Some? ==> r.value in list && Has(st, r.value)
    ensures r.None? ==> forall a :: a in list ==> !Has(st, a)
  {
    if list == [] then None
    else if Has(st, list[0]) then Some(list[0])
    else FirstPresent(st, list[1..])
  }

  function AddAll(list: seq<Address>, more: seq<Address>): (r: seq<Address>)
    ensures list <= r && forall a :: a in r <==> a in list || a in more
    decreases more
  {
    if more == [] then list
    else
      assert more == [more[0]] + more[1..];
      AddAll(AddOnce(list, more[0]), more[1..])
  }

  /** The addresses whose expiry blocks a write: the one it would use, then the legacy ones. */
  function ExpiryAddresses(h: string -> string, session: string, key: string, canonical: Address): (r: seq<Address>)
    requires Digest(h)
    ensures |r| > 0 && r[0] == canonical
  {
    AddAll([canonical], LegacyAddresses(h, session, key))
  }

  function WriteOutcome(h: string -> string, st: Store, session: string, key: string, value: Payload)
    : (Store, WriteResult)
    requires Digest(h)
  {
    match WriteAddress(h, session, key)
    case None => (st, Refused)
    case Some(canonical) =>
      match FirstExpired(st, ExpiryAddresses(h, session, key, canonical))
      case Some(a) => (st, Returned(Uri(a)))
      case None => (st.(files := st.files[PathOf(canonical) := value]), Returned(Uri(canonical)))
  }

  function ReadOutcome(h: string -> string, st: Store, uri: string): ReadResult
    requires Digest(h)
  {
    match ReadCandidates(h, uri)
    case None => Malformed
    case Some(list) =>
      match FirstPresent(st, list)
      case Some(a) => Found(st.files[PathOf(a)])
      case None =>
        match FirstExpired(st, list)
        case Some(a) => Expired(Uri(a))
        case None => Missing
  }

  // ---------------------------------------------------------------- the store

  class AsyncDiskBlobStore {
    const h: string -> string
    var files: map<Path, Payload>
    var expired: set<string>

    constructor (h: string -> string)
      ensures this.h == h && Contents() == Store(map[], {})
    {
      this.h := h;
      files, expired := map[], {};
    }

    ghost function Contents(): Store
      reads this
    {
      Store(files, expired)
    }

    method CheckExpiry(list: seq<Address>) returns (r: Option<Address>)
      ensures r == FirstExpired(Contents(), list)
    {
      for i := 0 to |list|
        invariant FirstExpired(Contents(), list) == FirstExpired(Contents(), list[i..])
      {
        if Uri(list[i]) in expired {
          return Some(list[i]);
        }
      }
      return None;
    }

    method OpenFirst(list: seq<Address>) returns (r: Option<Address>)
      ensures r == FirstPresent(Contents(), list)
    {
      for i := 0 to |list|
        invariant FirstPresent(Contents(), list) == FirstPresent(Contents(), list[i..])
      {
        if PathOf(list[i]) in files {
          return Some(list[i]);
        }
      }
      return None;
    }

    /** A write that fails on the way leaves no payload behind: the file is put in place by
        one rename at the end. */
    method Write(session: string, key: string, value: Payload) returns (r: WriteResult)
      requires Digest(h)
      modifies this`files
      ensures r != Failed ==> (Contents(), r) == WriteOutcome(h, old(Contents()), session, key, value)
      ensures r == Failed ==> files == old(files)
    {
      var canonical := WriteAddress(h, session, key);
      if canonical.None? {
        return Refused;
      }
      var blocked := CheckExpiry(ExpiryAddresses(h, session, key, canonical.value));
      if blocked.Some? {
        return Returned(Uri(blocked.value));
      }
      if * {
        return Failed;
      }
      files := files[PathOf(canonical.value) := value];
      return Returned(Uri(canonical.value));
    }

    method Read(uri: string) returns (r: ReadResult)
      requires Digest(h)
      ensures r == ReadOutcome(h, Contents(), uri)
    {
      var candidates := ReadCandidates(h, uri);
      if candidates.None? {
        return Malformed;
      }
      var present := OpenFirst(candidates.value);
      if present.Some? {
        return Found(files[PathOf(present.value)]);
      }
      var gone := CheckExpiry(candidates.value);
      return if gone.Some? then Expired(Uri(gone.value)) else Missing;
    }
  }

  // ---------------------------------------------------------------- one write

  /** A new write is read back under the URI it returned. */
  lemma ReadAfterWrite(h: string -> string, st: Store, session: string, key: string, value: Payload)
    requires Digest(h) && WriteAddress(h, session, key).Some?
    requires forall a :: a in ExpiryAddresses(h, session, key, WriteAddress(h, session, key).value) ==>
               Uri(a) !in st.expired
    ensures var (after, r) := WriteOutcome(h, st, session, key, value);
            r.Returned? && ReadOutcome(h, after, r.uri) == Found(value)
  {
    WrittenUriReadsItsAddress(h, session, key);
  }

  // ---------------------------------------------------------------- runs

  /** A prune records a present payload before it removes it. */
  datatype Action =
    | DoWrite(session: string, key: string, value: Payload)
    | Record(a: Address)
    | Unlink(a: Address)

  function Step(h: string -> string, st: Store, act: Action): Store
    requires Digest(h)
  {
    match act
    case DoWrite(session, key, value) => WriteOutcome(h, st, session, key, value).0
    case Record(a) => if Valid(a) && Has(st, a) then st.(expired := st.expired + {Uri(a)}) else st
    case Unlink(a) => if Valid(a) && Uri(a) in st.expired then st.(files := st.files - {PathOf(a)}) else st
  }

  function Run(h: string -> string, st: Store, acts: seq<Action>): Store
    requires Digest(h)
    decreases |acts|
  {
    if acts == [] then st else Run(h, Step(h, st, acts[0]), acts[1..])
  }

  lemma StepKeepsExpired(h: string -> string, st: Store, act: Action, a: Address)
    requires Digest(h) && Valid(a) && Uri(a) in st.expired
    ensures Uri(a) in Step(h, st, act).expired
    ensures Has(Step(h, st, act), a) ==> Has(st, a) && Step(h, st, act).files[PathOf(a)] == st.files[PathOf(a)]
  {
    if act.DoWrite? && WriteAddress(h, act.session, act.key).Some? {
      var canonical := WriteAddress(h, act.session, act.key).value;
      WriteAddressTotal(h, act.session, act.key);
      if PathOf(canonical) == PathOf(a) {
        OneFilePerAddress(canonical, a);
      }
    }
  }

  /** From the moment an expiry is recorded, no run of writes and prunes changes the payload
      or, once it is removed, creates it again. */
  lemma {:induction false} NoRehydration(h: string -> string, st: Store, acts: seq<Action>, a: Address)
    requires Digest(h) && Valid(a) && Uri(a) in st.expired
    ensures Uri(a) in Run(h, st, acts).expired
    ensures Has(Run(h, st, acts), a) ==> Has(st, a) && Run(h, st, acts).files[PathOf(a)] == st.files[PathOf(a)]
    decreases |acts|
  {
    if acts == [] {
    } else {
      StepKeepsExpired(h, st, acts[0], a);
      NoRehydration(h, Step(h, st, acts[0]), acts[1..], a);
    }
  }

  /** The latest value written to an address by a run, if it wrote one. */
  function LastWritten(h: string -> string, st: Store, acts: seq<Action>, a: Address, value: Payload): Payload
    requires Digest(h)
    decreases |acts|
  {
    if acts == [] then value
    else
      var act := acts[0];
      var wrote := act.DoWrite? && WriteOutcome(h, st, act.session, act.key, act.value) ==
                                   (st.(files := st.files[PathOf(a) := act.value]), Returned(Uri(a)));
      LastWritten(h, Step(h, st, act), acts[1..], a, if wrote then act.value else value)
  }

  /** As long as no expiry is recorded for it, a stored blob reads as the last value written
      to its address: writes to other names never reach its file. */
  lemma {:induction false} ReadsLastWritten(h: string -> string, st: Store, acts: seq<Action>, session: string, key: string)
    requires Digest(h) && WriteAddress(h, session, key).Some?
    requires var a := WriteAddress(h, session, key).value; Has(st, a) && Uri(a) !in Run(h, st, acts).expired
    ensures var a := WriteAddress(h, session, key).value;
            ReadOutcome(h, Run(h, st, acts), Uri(a)) == Found(LastWritten(h, st, acts, a, st.files[PathOf(a)]))
    decreases |acts|
  {
    var a := WriteAddress(h, session, key).value;
    WriteAddressTotal(h, session, key);
    WrittenUriReadsItsAddress(h, session, key);
    if acts == [] {
    } else {
      var next := Step(h, st, acts[0]);
      if Uri(a) in next.expired {
        NoRehydration(h, next, acts[1..], a);
      } else {
        StepWithoutExpiry(h, st, acts[0], a);
        ReadsLastWritten(h, next, acts[1..], session, key);
      }
    }
  }

  lemma StepWithoutExpiry(h: string -> string, st: Store, act: Action, a: Address)
    requires Digest(h) && Valid(a) && Has(st, a) && Uri(a) !in Step(h, st, act).expired
    ensures Has(Step(h, st, act), a)
    ensures Step(h, st, act).files[PathOf(a)] ==
            if act.DoWrite? && WriteOutcome(h, st, act.session, act.key, act.value) ==
                               (st.(files := st.files[PathOf(a) := act.value]), Returned(Uri(a)))
            then act.value else st.files[PathOf(a)]
  {
    match act
    case DoWrite(session, key, value) =>
      if WriteAddress(h, session, key).Some? {
        var canonical := WriteAddress(h, session, key).value;
        WriteAddressTotal(h, session, key);
        if PathOf(canonical) == PathOf(a) {
          OneFilePerAddress(canonical, a);
        }
      }
    case Record(b) =>
    case Unlink(b) =>
      if Valid(b) && PathOf(a) == PathOf(b) {
        OneFilePerAddress(a, b);
      }
  }

  // ---------------------------------------------------------------- expired names

  /** The addresses of a name: where a write would put it, and where older ones may have. */
  ghost predicate AddressOf(h: string -> string, session: string, key: string, a: Address)
    requires Digest(h) && WriteAddress(h, session, key).Some?
  {
    a == WriteAddress(h, session, key).value || a in LegacyAddresses(h, session, key)
  }

  ghost predicate NoCandidate(h: string -> string, st: Store, uri: string)
    requires Digest(h)
  {
    ReadCandidates(h, uri).Some? && forall c :: c in ReadCandidates(h, uri).value ==> !Has(st, c)
  }

  /** Every address of a name is the first place where its own URI is looked for. */
  lemma AddressIsFirstCandidate(h: string -> string, session: string, key: string, a: Address)
    requires Digest(h) && WriteAddress(h, session, key).Some? && AddressOf(h, session, key, a)
    ensures Valid(a) && ReadCandidates(h, Uri(a)).Some?
    ensures |ReadCandidates(h, Uri(a)).value| > 0 && ReadCandidates(h, Uri(a)).value[0] == a
  {
    WriteAddressTotal(h, session, key);
    if a == WriteAddress(h, session, key).value {
      WrittenUriReadsItsAddress(h, session, key);
    } else {
      LegacyFits(h, session, key, a);
      StoredUriIsACandidate(h, a);
    }
  }

  lemma LegacyFits(h: string -> string, session: string, key: string, a: Address)
    requires Digest(h) && a in LegacyAddresses(h, session, key)
    ensures Valid(a) && !a.mapped
    ensures Bytes(a.session) <= MAX_SESSION_BYTES && Bytes(a.name) <= MAX_PHYSICAL_KEY_BYTES
  {
    FoldFits(h, session, MAX_SESSION_BYTES);
    FoldFits(h, key, MAX_KEY_BYTES);
  }

  /** An expiry under any address of the name blocks the write, here and now. */
  lemma ExpiryBlocksWrite(h: string -> string, t: Store, session: string, key: string, value: Payload, a: Address)
    returns (b: Address)
    requires Digest(h) && WriteAddress(h, session, key).Some?
    requires AddressOf(h, session, key, a) && Uri(a) in t.expired
    ensures AddressOf(h, session, key, b) && Uri(b) in t.expired
    ensures WriteOutcome(h, t, session, key, value) == (t, Returned(Uri(b)))
    ensures Uri(WriteAddress(h, session, key).value) in t.expired ==> b == WriteAddress(h, session, key).value
  {
    var list := ExpiryAddresses(h, session, key, WriteAddress(h, session, key).value);
    assert a in list;
    b := FirstExpired(t, list).value;
  }

  /** A recorded expiry is reported under the URI it is recorded for. */
  lemma ReadReportsExpiry(h: string -> string, t: Store, b: Address)
    requires Digest(h) && Uri(b) in t.expired && ReadCandidates(h, Uri(b)).Some?
    requires |ReadCandidates(h, Uri(b)).value| > 0 && ReadCandidates(h, Uri(b)).value[0] == b
    ensures NoCandidate(h, t, Uri(b)) ==> ReadOutcome(h, t, Uri(b)) == Expired(Uri(b))
  {
  }

  /** Once any address of a name is recorded as expired, then after every run of writes and
      prunes: writing the name creates nothing and returns a recorded URI, the name's own if
      that one is recorded; and reading the returned URI reports the expiry, under that very
      URI, whenever no candidate file is there. */
  lemma ExpiredNameStaysExpired(h: string -> string, st: Store, acts: seq<Action>, session: string, key: string,
                                value: Payload, a: Address)
    requires Digest(h) && WriteAddress(h, session, key).Some?
    requires AddressOf(h, session, key, a) && Uri(a) in st.expired
    ensures var t := Run(h, st, acts);
            var (after, r) := WriteOutcome(h, t, session, key, value);
            && after == t && r.Returned? && r.uri in t.expired
            && (Uri(WriteAddress(h, session, key).value) in t.expired ==> r.uri == Uri(WriteAddress(h, session, key).value))
            && (NoCandidate(h, t, r.uri) ==> ReadOutcome(h, t, r.uri) == Expired(r.uri))
  {
    AddressIsFirstCandidate(h, session, key, a);
    NoRehydration(h, st, acts, a);
    var t := Run(h, st, acts);
    var b := ExpiryBlocksWrite(h, t, session, key, value, a);
    AddressIsFirstCandidate(h, session, key, b);
    ReadReportsExpiry(h, t, b);
  }
}
