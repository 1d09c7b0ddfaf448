/** What the review ledger asks of paths, hashes and entries, said of their characters. */
module LedgerTerms {
  import opened Wrappers
  import opened Text
  import opened ReviewLedger

  // ---- Paths ----------------------------------------------------------------------------------------

  ghost predicate Slashless(parts: seq<string>) {
    forall i | 0 <= i < |parts| :: '/' !in parts[i]
  }

  lemma {:induction false} SplitJoins(path: string)
    ensures SplitSlash(path) != [] && Slashless(SplitSlash(path)) && Join(SplitSlash(path), "/") == path
  {
    var i := IndexOf(path, '/');
    if i < |path| {
      SplitJoins(path[i + 1..]);
      var rest := SplitSlash(path[i + 1..]);
      assert ([path[..i]] + rest)[1..] == rest;
      assert path == path[..i] + "/" + path[i + 1..];
    }
  }

  lemma FirstSlash(s: string, i: nat)
    requires i < |s| && s[i] == '/' && '/' !in s[..i]
    ensures IndexOf(s, '/') == i
  {
    assert forall j | 0 <= j < i :: s[j] == s[..i][j];
  }

  lemma {:induction false} JoinSplits(parts: seq<string>)
    requires parts != [] && Slashless(parts)
    ensures SplitSlash(Join(parts, "/")) == parts
  {
    var path := Join(parts, "/");
    if |parts| == 1 {
      assert path == parts[0];
      assert IndexOf(path, '/') == |path|;
    } else {
      var head, rest := parts[0], Join(parts[1..], "/");
      assert path == head + "/" + rest;
      assert path[..|head|] == head && path[|head| + 1..] == rest;
      FirstSlash(path, |head|);
      assert forall i | 0 <= i < |parts| - 1 :: parts[1..][i] == parts[i + 1];
      JoinSplits(parts[1..]);
    }
  }

  /** Splitting at slashes gives the one list of slashless parts that joins to the path. */
  lemma SplitExactly(path: string, parts: seq<string>)
    ensures SplitSlash(path) == parts <==> parts != [] && Slashless(parts) && Join(parts, "/") == path
  {
    SplitJoins(path);
    if parts != [] && Slashless(parts) && Join(parts, "/") == path {
      JoinSplits(parts);
    }
    hide SplitSlash, Join, Slashless;
  }

  /** The part names something: it is not empty, and not the current directory. */
  predicate Names(part: string) {
    part != "" && part != "."
  }

  /** The last naming part. */
  ghost predicate LastName(parts: seq<string>, i: nat) {
    i < |parts| && Names(parts[i]) && forall j | i < j < |parts| :: !Names(parts[j])
  }

  lemma {:induction false} ComponentMembers(parts: seq<string>, name: string)
    ensures name in Components(parts) <==> name in parts && Names(name)
  {
    if parts != [] {
      ComponentMembers(parts[1..], name);
      assert parts == [parts[0]] + parts[1..];
    }
  }

  lemma {:induction false} LastComponent(parts: seq<string>, i: nat)
    requires LastName(parts, i)
    ensures Components(parts) != [] && Components(parts)[|Components(parts)| - 1] == parts[i]
  {
    var tail := parts[1..];
    LastShift(parts, i);
    if i > 0 {
      LastComponent(tail, i - 1);
    } else {
      NoNames(tail);
    }
  }

  lemma {:induction false} HasLastName(parts: seq<string>) returns (i: nat)
    requires Components(parts) != []
    ensures LastName(parts, i)
  {
    var tail := parts[1..];
    if Components(tail) != [] {
      i := HasLastName(tail);
      i := i + 1;
      LastShift(parts, i);
    } else {
      i := 0;
      NamesOnly(tail);
      assert forall j | 0 < j < |parts| :: parts[j] == tail[j - 1];
    }
  }

  lemma LastShift(parts: seq<string>, i: nat)
    requires parts != []
    ensures i > 0 ==> (LastName(parts, i) <==> LastName(parts[1..], i - 1))
    ensures LastName(parts, 0) ==> forall j | 0 <= j < |parts| - 1 :: !Names(parts[1..][j])
  {
    assert forall j | 0 <= j < |parts| - 1 :: parts[1..][j] == parts[j + 1];
  }

  lemma {:induction false} NoNames(parts: seq<string>)
    requires forall j | 0 <= j < |parts| :: !Names(parts[j])
    ensures Components(parts) == []
  {
    if parts != [] {
      NoNames(parts[1..]);
    }
  }

  lemma {:induction false} NamesOnly(parts: seq<string>)
    requires Components(parts) == []
    ensures forall j | 0 <= j < |parts| :: !Names(parts[j])
  {
    if parts != [] {
      NamesOnly(parts[1..]);
      assert forall j | 0 < j < |parts| :: parts[j] == parts[1..][j - 1];
    }
  }

  /** The path is relative, no part climbs, and its last naming part is a Markdown file. */
  ghost predicate SafeMarkdown(path: string) {
    && (path == "" || path[0] != '/')
    && exists parts | parts != [] && Slashless(parts) && Join(parts, "/") == path ::
         && ".." !in parts
         && exists i: nat | LastName(parts, i) :: |parts[i]| > 3 && parts[i][|parts[i]| - 3..] == ".md"
  }

  lemma SafeParts(path: string, parts: seq<string>)
    requires parts == SplitSlash(path)
    ensures SafePath(path) <==>
      && (path == "" || path[0] != '/') && ".." !in parts
      && exists i: nat | LastName(parts, i) :: |parts[i]| > 3 && parts[i][|parts[i]| - 3..] == ".md"
  {
    ComponentMembers(parts, "..");
    if Components(parts) != [] {
      var i := HasLastName(parts);
      LastComponent(parts, i);
    }
    forall i: nat | LastName(parts, i)
      ensures Components(parts) != [] && Components(parts)[|Components(parts)| - 1] == parts[i]
    {
      LastComponent(parts, i);
    }
    hide SplitSlash, Components, LastName;
  }

  lemma SafeExactly(path: string)
    ensures SafePath(path) <==> SafeMarkdown(path)
  {
    var parts := SplitSlash(path);
    SplitExactly(path, parts);
    SafeParts(path, parts);
    forall other
      ensures other != [] && Slashless(other) && Join(other, "/") == path <==> other == parts
    {
      SplitExactly(path, other);
    }
    hide SplitSlash, Components, Slashless, Join, LastName, SafePath;
  }

  // ---- Hashes and entries ---------------------------------------------------------------------------

  /** Forty lower-case hexadecimal digits. */
  ghost predicate Hash(s: string) {
    |s| == 40 && forall i | 0 <= i < |s| :: s[i] in "0123456789abcdef"
  }

  lemma HashExactly(s: string)
    ensures IsBlob(s) <==> Hash(s)
  {
    forall c: char
      ensures c in "0123456789abcdef" <==> '0' <= c <= '9' || 'a' <= c <= 'f'
    {
      HexDigit(c);
    }
  }

  lemma HexDigit(c: char)
    ensures c in "0123456789abcdef" <==> '0' <= c <= '9' || 'a' <= c <= 'f'
  {
    var hex := "0123456789abcdef";
    assert forall k | 0 <= k < 10 :: hex[k] == ('0' as int + k) as char;
    assert forall k | 10 <= k < 16 :: hex[k] == ('a' as int + k - 10) as char;
    if '0' <= c <= '9' {
      assert hex[c as int - '0' as int] == c;
    }
    if 'a' <= c <= 'f' {
      assert hex[c as int - 'a' as int + 10] == c;
    }
  }

  /** The entry names a safe path and a positive section. */
  ghost predicate Located(e: Entry) {
    e.Entry? && e.path.Some? && SafeMarkdown(e.path.value) && e.section.Some? && e.section.value > 0
  }

  /** The entry approves its section as it stands: a visible rationale, and for each language
      the hash of the document that is there now. */
  ghost predicate Approves(e: Entry, docs: Documents) {
    && Located(e) && e.decision == "meaning-preserved"
    && e.evidence.Some? && (exists i | 0 <= i < |e.evidence.value| :: !IsSpace(e.evidence.value[i]))
    && e.enBlob.Some? && Hash(e.enBlob.value) && docs.en(e.path.value) == e.enBlob
    && e.koBlob.Some? && Hash(e.koBlob.value) && docs.ko(e.path.value) == e.koBlob
  }

  /** The ledger is well formed: located entries, one a section, and no claim that meaning is
      preserved without everything an approval needs. */
  ghost predicate WellKept(entries: seq<Entry>, docs: Documents) {
    && (forall i | 0 <= i < |entries| :: Located(entries[i]))
    && (forall i, j | 0 <= i < j < |entries| ::
          entries[i].path != entries[j].path || entries[i].section != entries[j].section)
    && (forall i | 0 <= i < |entries| && entries[i].decision == "meaning-preserved" :: Approves(entries[i], docs))
  }

  /** Acceptance, in full: the ledger is well kept, and an approving entry answers every
      finding, which must therefore name a section. */
  lemma AcceptableExactly(ledger: Ledger, findings: seq<Finding>, docs: Documents)
    ensures Acceptable(ledger, findings, docs) <==>
      && ledger.Some? && WellKept(ledger.value, docs)
      && forall f | f in findings :: f.section.Some? && exists e | e in ledger.value ::
           Approves(e, docs) && e.path == Some(f.path) && e.section == f.section
  {
    if ledger.Some? {
      SoundExactly(ledger.value, docs);
      if WellKept(ledger.value, docs) {
        forall f: Finding
          ensures Disposed(f, ledger.value) <==> f.section.Some? && exists e | e in ledger.value ::
            Approves(e, docs) && e.path == Some(f.path) && e.section == f.section
        {
          DisposedMeans(f, ledger.value, docs);
        }
      }
    }
    hide EntriesSound, WellKept, Disposed, Approves;
  }

  lemma IdentifiedExactly(e: Entry)
    ensures Identified(e) <==> Located(e)
  {
    if e.Entry? && e.path.Some? {
      SafeExactly(e.path.value);
      EmptyIsUnsafe();
    }
    hide SafePath, SafeMarkdown;
  }

  lemma EmptyIsUnsafe()
    ensures !SafePath("")
  {
  }

  lemma JustifiedExactly(e: Entry, docs: Documents)
    requires Identified(e) && Preserved(e)
    ensures Justified(e, docs) <==> Approves(e, docs)
  {
    IdentifiedExactly(e);
    if e.enBlob.Some? {
      HashExactly(e.enBlob.value);
    }
    if e.koBlob.Some? {
      HashExactly(e.koBlob.value);
    }
    hide Identified, Located, IsBlob, Hash;
  }

  lemma SoundExactly(entries: seq<Entry>, docs: Documents)
    ensures EntriesSound(entries, docs) <==> WellKept(entries, docs)
  {
    forall i | 0 <= i < |entries|
      ensures Identified(entries[i]) <==> Located(entries[i])
      ensures Identified(entries[i]) && Preserved(entries[i]) ==>
        (Justified(entries[i], docs) <==> Approves(entries[i], docs))
    {
      IdentifiedExactly(entries[i]);
      if Identified(entries[i]) && Preserved(entries[i]) {
        JustifiedExactly(entries[i], docs);
      }
    }
    LocatedIsEntry(entries);
    hide Identified, Located, Justified, Approves;
  }

  lemma LocatedIsEntry(entries: seq<Entry>)
    ensures forall i | 0 <= i < |entries| && Located(entries[i]) ::
      entries[i].Entry? && entries[i].path.Some? && entries[i].section.Some?
  {
  }

  lemma DisposedMeans(f: Finding, entries: seq<Entry>, docs: Documents)
    requires WellKept(entries, docs)
    ensures Disposed(f, entries) <==> f.section.Some? && exists e | e in entries ::
      Approves(e, docs) && e.path == Some(f.path) && e.section == f.section
  {
    forall i | 0 <= i < |entries|
      ensures Identified(entries[i])
    {
      IdentifiedExactly(entries[i]);
    }
    LocatedIsEntry(entries);
    hide Identified, Located;
    if f.section.Some? && exists e | e in entries ::
      Approves(e, docs) && e.path == Some(f.path) && e.section == f.section {
      var e :| e in entries && Approves(e, docs) && e.path == Some(f.path) && e.section == f.section;
      var i :| 0 <= i < |entries| && entries[i] == e;
      assert Key(entries[i]) == (f.path, f.section.value);
    }
    if Disposed(f, entries) {
      var i :| 0 <= i < |entries| && Preserved(entries[i]) && Identified(entries[i])
        && Key(entries[i]) == (f.path, f.section.value);
      assert entries[i] in entries;
    }
  }
}
