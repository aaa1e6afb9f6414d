/**
 The list of character names that travels as comma-separated text: joined into the token,
 split and joined again by the ground station, split by the relay before its check.
 */
module AllowedNames {
  const COMMA := ','

  function Join(names: seq<string>): string {
    if names == [] then ""
    else if |names| == 1 then names[0]
    else names[0] + [COMMA] + Join(names[1..])
  }

  function Split(s: string): (parts: seq<string>)
    ensures parts != []
  {
    if s == "" then [""]
    else
      var rest := Split(s[1..]);
      if s[0] == COMMA then [""] + rest else [[s[0]] + rest[0]] + rest[1..]
  }

  predicate CommaFree(names: seq<string>) {
    forall i | 0 <= i < |names| :: ',' !in names[i]
  }

  lemma JoinFront(head: string, tail: seq<string>)
    requires tail != []
    ensures Join([head] + tail) == head + "," + Join(tail)
  {
    assert ([head] + tail)[1..] == tail;
  }

  /** Splitting loses nothing: joining the parts gives back any text at all. */
  lemma {:induction false} JoinInvertsSplit(s: string)
    ensures Join(Split(s)) == s
  {
    if s != "" {
      var rest := Split(s[1..]);
      JoinInvertsSplit(s[1..]);
      if s[0] == COMMA {
        JoinFront("", rest);
      } else if |rest| == 1 {
        assert [[s[0]] + rest[0]] + rest[1..] == [[s[0]] + rest[0]];
      } else {
        JoinFront([s[0]] + rest[0], rest[1..]);
        assert rest == [rest[0]] + rest[1..];
        JoinFront(rest[0], rest[1..]);
      }
    }
  }

  lemma {:induction false} SplitIsCommaFree(s: string)
    ensures CommaFree(Split(s))
  {
    if s != "" {
      SplitIsCommaFree(s[1..]);
    }
  }

  lemma {:induction false} SplitOfCommaFree(s: string)
    requires ',' !in s
    ensures Split(s) == [s]
  {
    if s != "" {
      SplitOfCommaFree(s[1..]);
      assert s == [s[0]] + s[1..];
    }
  }

  /** A comma separates two texts into the parts of each. */
  lemma {:induction false} SplitAtComma(a: string, b: string)
    ensures Split(a + "," + b) == Split(a) + Split(b)
  {
    var s := a + [COMMA] + b;
    if a == "" {
      assert s[1..] == b;
    } else {
      assert s[1..] == a[1..] + [COMMA] + b;
      SplitAtComma(a[1..], b);
    }
  }

  lemma {:induction false} SplitInvertsJoinOfCommaFree(names: seq<string>)
    requires names != [] && CommaFree(names)
    ensures Split(Join(names)) == names
  {
    SplitOfCommaFree(names[0]);
    if |names| > 1 {
      SplitInvertsJoinOfCommaFree(names[1..]);
      SplitAtComma(names[0], Join(names[1..]));
    }
  }

  /** A list survives joining and splitting exactly when it is not empty and holds no comma. */
  lemma SplitInvertsJoin(names: seq<string>)
    ensures Split(Join(names)) == names <==> names != [] && CommaFree(names)
  {
    if names != [] && CommaFree(names) {
      SplitInvertsJoinOfCommaFree(names);
    }
    SplitIsCommaFree(Join(names));
  }

  /** In general the parts are those of the listed names, whatever commas those hold. */
  lemma {:induction false} PartsOfJoin(names: seq<string>, name: string)
    requires names != []
    ensures name in Split(Join(names)) <==> exists i | 0 <= i < |names| :: name in Split(names[i])
  {
    if |names| > 1 {
      PartsOfJoin(names[1..], name);
      SplitAtComma(names[0], Join(names[1..]));
      if name in Split(Join(names[1..])) {
        var i :| 0 <= i < |names[1..]| && name in Split(names[1..][i]);
        assert name in Split(names[i + 1]);
      }
      if i :| 0 <= i < |names| && name in Split(names[i]) {
        assert i > 0 ==> names[1..][i - 1] == names[i];
      }
    }
  }

  // ---- From the account's character list to the relay's check ----

  /** The text the ground station stores: the token's claim split and joined once more. */
  function StoredList(characters: seq<string>): string {
    Join(Split(Join(characters)))
  }

  /** The relay's check, which runs only on a non-empty name. */
  predicate Admits(stored: string, name: string) {
    name != "" && name in Split(stored)
  }

  /** Who may broadcast: the comma-free pieces of the account's names, and nobody on an empty list. */
  lemma AdmittedNames(characters: seq<string>, name: string)
    ensures Admits(StoredList(characters), name)
            <==> name != "" && exists i | 0 <= i < |characters| :: name in Split(characters[i])
  {
    JoinInvertsSplit(Join(characters));
    if characters == [] {
      assert Split("") == [""];
    } else {
      PartsOfJoin(characters, name);
    }
  }

  /** On comma-free names the two passes keep membership: exactly the account's non-empty names pass. */
  lemma AccountNamesAdmitted(characters: seq<string>, name: string)
    requires CommaFree(characters)
    ensures Admits(StoredList(characters), name) <==> name != "" && name in characters
  {
    AdmittedNames(characters, name);
    forall i | 0 <= i < |characters|
      ensures Split(characters[i]) == [characters[i]]
    {
      SplitOfCommaFree(characters[i]);
    }
  }
}
