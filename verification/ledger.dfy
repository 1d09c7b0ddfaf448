/** The fail-closed review ledger for translated documentation. */
module ReviewLedger {
  import opened Wrappers
  import opened Text

  /** One ledger entry. A field is `None` when its JSON value has the wrong type. */
  datatype Entry =
    | NotAnObject
    | Entry(path: Option<string>, section: Option<int>, decision: string, evidence: Option<string>,
            enBlob: Option<string>, koBlob: Option<string>)

  /** One advisory finding; a page-level finding has no section. */
  datatype Finding = Finding(path: string, section: Option<int>)

  /** `None` when the version or the list of reviews is malformed. */
  type Ledger = Option<seq<Entry>>

  /** The blob hash of the current document at a path, if there is such a file. */
  datatype Documents = Documents(en: string -> Option<string>, ko: string -> Option<string>)

  datatype Problem =
    | BadSchema | NotObject | BadIdentity | UnsafePath(path: string) | Duplicate(path: string, section: int)
    | NoRationale(path: string, section: int) | BadBlob(path: string, section: int)
    | MissingDocument(path: string, section: int) | Stale(path: string, section: int)
    | Undisposed(finding: Finding)

  // ---- Paths and hashes ------------------------------------------------------------------

  function SplitSlash(s: string): seq<string> {
    var i := IndexOf(s, '/');
    if i == |s| then [s] else [s[..i]] + SplitSlash(s[i + 1..])
  }

  /** Path components; empty and "." components vanish. */
  function Components(parts: seq<string>): seq<string> {
    if parts == [] then []
    else (if parts[0] == "" || parts[0] == "." then [] else [parts[0]]) + Components(parts[1..])
  }

  /** Relative, never climbing, and naming a Markdown file. */
  predicate SafePath(path: string) {
    var parts := Components(SplitSlash(path));
    && !(path != "" && path[0] == '/')
    && ".." !in parts
    && parts != []
    && (var name := parts[|parts| - 1]; |name| > 3 && name[|name| - 3..] == ".md")
  }

  predicate IsBlob(s: string) {
    |s| == 40 && forall i | 0 <= i < 40 :: '0' <= s[i] <= '9' || 'a' <= s[i] <= 'f'
  }

  // ---- What an acceptable ledger is --------------------------------------------------------

  predicate Named(e: Entry) {
    e.Entry? && e.path.Some? && e.path.value != "" && e.section.Some? && e.section.value > 0
  }

  predicate Identified(e: Entry) {
    Named(e) && SafePath(e.path.value)
  }

  function Key(e: Entry): (string, int)
    requires Identified(e)
  {
    (e.path.value, e.section.value)
  }

  predicate Preserved(e: Entry) {
    e.Entry? && e.decision == "meaning-preserved"
  }

  predicate Current(expected: Option<string>, actual: Option<string>) {
    expected.Some? && IsBlob(expected.value) && actual == expected
  }

  predicate Justified(e: Entry, docs: Documents)
    requires Identified(e)
  {
    && e.evidence.Some? && !Blank(e.evidence.value)
    && Current(e.enBlob, docs.en(e.path.value)) && Current(e.koBlob, docs.ko(e.path.value))
  }

  /** Every entry is identified, identities are unique, and every entry that claims the
      meaning is preserved has a rationale and pins both current documents. */
  ghost predicate EntriesSound(entries: seq<Entry>, docs: Documents) {
    && (forall i | 0 <= i < |entries| :: Identified(entries[i]))
    && (forall i, j | 0 <= i < j < |entries| :: Key(entries[i]) != Key(entries[j]))
    && (forall i | 0 <= i < |entries| && Preserved(entries[i]) :: Justified(entries[i], docs))
  }

  ghost predicate Disposed(f: Finding, entries: seq<Entry>) {
    f.section.Some? && exists i | 0 <= i < |entries| ::
      Preserved(entries[i]) && Identified(entries[i]) && Key(entries[i]) == (f.path, f.section.value)
  }

  ghost predicate Acceptable(ledger: Ledger, findings: seq<Finding>, docs: Documents) {
    && ledger.Some? && EntriesSound(ledger.value, docs)
    && forall i | 0 <= i < |findings| :: Disposed(findings[i], ledger.value)
  }

  // ---- The check ---------------------------------------------------------------------------

  /** One side of the blob comparison. */
  method CheckBlob(path: string, section: int, expected: Option<string>, actual: Option<string>)
    returns (problem: Option<Problem>)
    ensures problem.None? <==> Current(expected, actual)
    ensures problem == Some(BadBlob(path, section)) <==> expected.None? || !IsBlob(expected.value)
    ensures problem == Some(MissingDocument(path, section)) <==>
      expected.Some? && IsBlob(expected.value) && actual.None?
    ensures problem == Some(Stale(path, section)) <==>
      expected.Some? && IsBlob(expected.value) && actual.Some? && actual != expected
  {
    if expected.None? || !IsBlob(expected.value) {
      return Some(BadBlob(path, section));
    }
    if actual.None? {
      return Some(MissingDocument(path, section));
    }
    if expected != actual {
      return Some(Stale(path, section));
    }
    return None;
  }

  /** Validate one entry against those already seen. `approve` says whether the entry
      becomes an approval. */
  method CheckEntry(e: Entry, seen: set<(string, int)>, docs: Documents)
    returns (problems: seq<Problem>, key: Option<(string, int)>, approve: bool)
    ensures key.Some? <==> Identified(e) && Key(e) !in seen
    ensures key.Some? ==> key.value == Key(e)
    ensures problems == [] <==> Identified(e) && Key(e) !in seen && (Preserved(e) ==> Justified(e, docs))
    ensures approve <==> Identified(e) && Key(e) !in seen && Preserved(e) && Justified(e, docs)
    ensures e.NotAnObject? ==> problems == [NotObject]
    ensures e.Entry? && !Named(e) ==> problems == [BadIdentity]
    ensures e.Entry? && Named(e) && !SafePath(e.path.value) ==> problems == [UnsafePath(e.path.value)]
    ensures Identified(e) && Key(e) in seen ==> problems == [Duplicate(e.path.value, e.section.value)]
    ensures Identified(e) && Key(e) !in seen && Preserved(e) && (e.evidence.None? || Blank(e.evidence.value)) ==>
      problems == [NoRationale(e.path.value, e.section.value)]
  {
    problems, key, approve := [], None, false;
    if e.NotAnObject? {
      return [NotObject], None, false;
    }
    if e.path.None? || e.path.value == "" || e.section.None? || e.section.value <= 0 {
      return [BadIdentity], None, false;
    }
    var path, section := e.path.value, e.section.value;
    if !SafePath(path) {
      return [UnsafePath(path)], None, false;
    }
    if (path, section) in seen {
      return [Duplicate(path, section)], None, false;
    }
    key := Some((path, section));
    if e.decision != "meaning-preserved" {
      return;
    }
    if e.evidence.None? || Blank(e.evidence.value) {
      problems := [NoRationale(path, section)];
      return;
    }
    var en := CheckBlob(path, section, e.enBlob, docs.en(path));
    var ko := CheckBlob(path, section, e.koBlob, docs.ko(path));
    if en.Some? {
      problems := problems + [en.value];
    }
    if ko.Some? {
      problems := problems + [ko.value];
    }
    approve := en.None? && ko.None?;
  }

  /** Fail closed: the check reports nothing exactly when the ledger is acceptable for
      the findings. */
  method VerifyReviewed(ledger: Ledger, findings: seq<Finding>, docs: Documents) returns (errors: seq<Problem>)
    ensures errors == [] <==> Acceptable(ledger, findings, docs)
    ensures ledger.None? ==> errors == [BadSchema]
    ensures ledger.Some? ==> forall f | f in findings && f.section.None? :: Undisposed(f) in errors
  {
    if ledger.None? {
      return [BadSchema];
    }
    hide EntriesSound, PreservedKeys, Disposed;
    var approved;
    errors, approved := CheckEntries(ledger.value, docs);
    var undisposed := CheckFindings(findings, approved);
    forall f: Finding
      ensures Disposed(f, ledger.value) <==>
        f.section.Some? && (f.path, f.section.value) in PreservedKeys(ledger.value)
    {
      DisposedExactly(f, ledger.value);
    }
    errors := errors + undisposed;
  }

  /** The entries, in order; approvals are meaningful once no entry has a problem. */
  method CheckEntries(entries: seq<Entry>, docs: Documents)
    returns (errors: seq<Problem>, approved: set<(string, int)>)
    ensures errors == [] <==> EntriesSound(entries, docs)
    ensures errors == [] ==> approved == PreservedKeys(entries)
  {
    errors, approved := [], {};
    var seen: set<(string, int)> := {};
    NothingChecked(docs);
    hide Checked, Identified, Preserved, Justified;
    for i := 0 to |entries|
      invariant Checked(entries[..i], docs, errors, seen, approved)
    {
      var problems, key, approve := CheckEntry(entries[i], seen, docs);
      CheckedNext(entries, docs, i, errors, seen, approved, problems);
      assert seen + {} == seen && approved + {} == approved;
      errors := errors + problems;
      if key.Some? {
        seen := seen + {key.value};
      }
      if approve {
        approved := approved + {key.value};
      }
    }
    assert entries[..|entries|] == entries;
    Conclude(entries, docs, errors, seen, approved);
  }

  /** What the entry loop has established about the entries it has read. */
  ghost predicate Checked(entries: seq<Entry>, docs: Documents, errors: seq<Problem>, seen: set<(string, int)>,
                          approved: set<(string, int)>) {
    && (errors == [] <==> EntriesSound(entries, docs))
    && seen == Keys(entries)
    && (errors == [] ==> approved == PreservedKeys(entries))
  }

  lemma NothingChecked(docs: Documents)
    ensures Checked([], docs, [], {}, {})
  {
  }

  lemma Conclude(entries: seq<Entry>, docs: Documents, errors: seq<Problem>, seen: set<(string, int)>,
                 approved: set<(string, int)>)
    requires Checked(entries, docs, errors, seen, approved)
    ensures errors == [] <==> EntriesSound(entries, docs)
    ensures errors == [] ==> approved == PreservedKeys(entries)
  {
    hide EntriesSound, PreservedKeys, Keys;
  }

  lemma CheckedNext(entries: seq<Entry>, docs: Documents, i: nat, errors: seq<Problem>, seen: set<(string, int)>,
                    approved: set<(string, int)>, problems: seq<Problem>)
    requires i < |entries| && Checked(entries[..i], docs, errors, seen, approved)
    requires var e := entries[i];
      problems == [] <==> Identified(e) && Key(e) !in seen && (Preserved(e) ==> Justified(e, docs))
    ensures var e := entries[i];
      var isNew := Identified(e) && Key(e) !in seen;
      Checked(entries[..i + 1], docs, errors + problems,
        seen + (if isNew then {Key(e)} else {}),
        approved + (if isNew && Preserved(e) && Justified(e, docs) then {Key(e)} else {}))
  {
    EntryNext(entries, docs, i);
    hide EntriesSound, Keys, PreservedKeys, Identified, Preserved, Justified, Key;
  }

  /** Every finding needs an approved entry for its own page and section. */
  method CheckFindings(findings: seq<Finding>, approved: set<(string, int)>) returns (errors: seq<Problem>)
    ensures errors == [] <==>
      forall i | 0 <= i < |findings| ::
        findings[i].section.Some? && (findings[i].path, findings[i].section.value) in approved
    ensures forall f | f in findings && f.section.None? :: Undisposed(f) in errors
  {
    errors := [];
    for i := 0 to |findings|
      invariant errors == [] <==>
        forall j | 0 <= j < i ::
          findings[j].section.Some? && (findings[j].path, findings[j].section.value) in approved
      invariant forall j | 0 <= j < i && findings[j].section.None? :: Undisposed(findings[j]) in errors
    {
      var f := findings[i];
      if f.section.None? || (f.path, f.section.value) !in approved {
        errors := errors + [Undisposed(f)];
      }
    }
  }

  ghost function Keys(entries: seq<Entry>): set<(string, int)> {
    set i | 0 <= i < |entries| && Identified(entries[i]) :: Key(entries[i])
  }

  ghost function PreservedKeys(entries: seq<Entry>): set<(string, int)> {
    set i | 0 <= i < |entries| && Identified(entries[i]) && Preserved(entries[i]) :: Key(entries[i])
  }

  lemma DisposedExactly(f: Finding, entries: seq<Entry>)
    ensures Disposed(f, entries) <==> f.section.Some? && (f.path, f.section.value) in PreservedKeys(entries)
  {
    hide Identified, Named, Preserved;
  }

  /** How one more entry changes soundness and the two key sets. */
  lemma EntryNext(entries: seq<Entry>, docs: Documents, i: nat)
    requires i < |entries|
    ensures var e, now, more := entries[i], entries[..i], entries[..i + 1];
      && (EntriesSound(more, docs) <==>
            && EntriesSound(now, docs) && Identified(e) && Key(e) !in Keys(now)
            && (Preserved(e) ==> Justified(e, docs)))
      && Keys(more) == Keys(now) + (if Identified(e) then {Key(e)} else {})
      && PreservedKeys(more) == PreservedKeys(now) + (if Identified(e) && Preserved(e) then {Key(e)} else {})
  {
    var more, now := entries[..i + 1], entries[..i];
    assert more == now + [entries[i]];
    SoundNext(now, entries[i], docs);
    KeysNext(now, entries[i]);
  }

  lemma KeysNext(now: seq<Entry>, e: Entry)
    ensures Keys(now + [e]) == Keys(now) + (if Identified(e) then {Key(e)} else {})
    ensures PreservedKeys(now + [e])
         == PreservedKeys(now) + (if Identified(e) && Preserved(e) then {Key(e)} else {})
  {
    var more := now + [e];
    assert more[|now|] == e && forall j | 0 <= j < |now| :: more[j] == now[j];
    hide Preserved, SafePath;
  }

  lemma SoundNext(now: seq<Entry>, e: Entry, docs: Documents)
    ensures EntriesSound(now + [e], docs) <==>
      EntriesSound(now, docs) && Identified(e) && Key(e) !in Keys(now) && (Preserved(e) ==> Justified(e, docs))
  {
    var more := now + [e];
    assert more[|now|] == e && forall j | 0 <= j < |now| :: more[j] == now[j];
    hide Identified, Named, Justified, Preserved;
    if EntriesSound(now, docs) && Identified(e) && Key(e) !in Keys(now) {
      forall i, j | 0 <= i < j < |more|
        ensures Identified(more[i]) && Identified(more[j]) && Key(more[i]) != Key(more[j])
      {
        assert i < |now| && Key(now[i]) in Keys(now);
      }
    }
  }
}
