/** The shared-secret rule of the build route and of the submission store:
    the configured value is a comma-separated list, each entry is trimmed,
    empty entries are dropped, and the caller's secret must equal one of
    the entries exactly (the caller's secret itself is not trimmed). */
module Secrets {
  import opened Strings

  /** The trimmed form of every entry. */
  function Stripped(parts: seq<string>): (r: seq<string>)
    ensures |r| == |parts|
    ensures forall i :: 0 <= i < |parts| ==> r[i] == Strip(parts[i])
  {
    seq(|parts|, i requires 0 <= i < |parts| => Strip(parts[i]))
  }

  /** `[s.strip() for s in parts if s.strip()]`. */
  function Entries(parts: seq<string>): (valid: seq<string>)
    ensures forall x :: x in valid <==> x != [] && x in Stripped(parts)
  {
    if parts == [] then []
    else
      var rest := Entries(parts[1..]);
      assert Stripped(parts) == [Strip(parts[0])] + Stripped(parts[1..]);
      var e := Strip(parts[0]);
      if e != [] then [e] + rest else rest
  }

  /** The accepted secrets of a configured value. */
  function AcceptedSecrets(configured: string): (valid: seq<string>)
    ensures forall x :: x in valid ==> x != [] && ',' !in x
    ensures forall x :: x in valid ==> !IsSpace(x[0]) && !IsSpace(x[|x| - 1])
  {
    var parts := Split(configured, ',');
    var valid := Entries(parts);
    forall x | x in valid ensures ',' !in x {
      var i :| 0 <= i < |parts| && Stripped(parts)[i] == x;
    }
    valid
  }

  /** `validate_secret(provided)`. */
  function ValidSecret(configured: string, provided: string): (ok: bool)
    ensures configured == [] ==> !ok
    ensures ok ==> provided != [] && ',' !in provided
    ensures ok ==> !IsSpace(provided[0]) && !IsSpace(provided[|provided| - 1])
  {
    configured != [] && provided in AcceptedSecrets(configured)
  }

  /** For a configured list written as comma-joined entries, a secret is
      accepted exactly when it equals the trimmed form of a non-blank entry. */
  lemma SecretListAccepts(entries: seq<string>, provided: string)
    requires entries != []
    requires forall i :: 0 <= i < |entries| ==> ',' !in entries[i]
    ensures ValidSecret(Join(entries, ","), provided)
            <==> provided != [] && provided in Stripped(entries)
  {
    var c := Join(entries, ",");
    SplitJoin(entries, ',');
    assert Split(c, ',') == entries;
    assert provided in AcceptedSecrets(c) <==> provided != [] && provided in Stripped(entries);
    if c == [] {
      assert IndexOf(c, ',') == -1;
      assert entries == [[]];
      assert Stripped(entries) == [Strip([])];
    }
  }

  /** A list of stripped, non-blank, comma-free secrets accepts exactly its
      members, and no padded form of them. */
  lemma {:induction false} SecretListExact(entries: seq<string>, provided: string)
    requires entries != []
    requires forall i :: 0 <= i < |entries| ==> entries[i] != [] && ',' !in entries[i]
    requires forall i :: 0 <= i < |entries| ==> !IsSpace(entries[i][0]) && !IsSpace(entries[i][|entries[i]| - 1])
    ensures ValidSecret(Join(entries, ","), provided) <==> provided in entries
  {
    SecretListAccepts(entries, provided);
    forall i | 0 <= i < |entries| ensures Strip(entries[i]) == entries[i] {
      StripStripped(entries[i]);
    }
    assert Stripped(entries) == entries;
  }

  /** The caller's secret is not trimmed before the comparison. */
  lemma PaddedSecretRejected()
    ensures ValidSecret("abc", "abc")
    ensures !ValidSecret("abc", " abc")
  {
    SecretListExact(["abc"], "abc");
    SecretListExact(["abc"], " abc");
  }

  /** A configuration holding only separators and blanks accepts nothing. */
  lemma BlankListRejectsAll(entries: seq<string>, provided: string)
    requires entries != []
    requires forall i :: 0 <= i < |entries| ==> ',' !in entries[i] && AllSpace(entries[i])
    ensures !ValidSecret(Join(entries, ","), provided)
  {
    SecretListAccepts(entries, provided);
    assert forall x :: x in Stripped(entries) ==> x == [];
  }
}
