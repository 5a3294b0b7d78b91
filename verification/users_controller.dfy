/**
 * `UsersController` (review-server/server/api/controllers/users/usersController.ts): login by
 * name, creating the user on first login, and the update handler.
 */
module UsersController {
  import opened Options
  import opened DocStore
  import opened Http
  import opened Seqs
  import opened UserService

  const NAME_REQUIRED := "Name is required"
  const UPDATE_FAILED := "Failed to update user"
  const EMAIL_DOMAIN := "@example.com"

  // ---------------------------------------------------------------- text

  /** The characters `\s` matches, restricted to ASCII. */
  predicate IsSpace(c: char) {
    c == ' ' || c == '\t' || c == '\n' || c == '\U{B}' || c == '\U{C}' || c == '\r'
  }

  predicate IsUpper(c: char) { 'A' <= c <= 'Z' }

  function LowerChar(c: char): (r: char)
    ensures !IsUpper(r)
    ensures IsSpace(r) <==> IsSpace(c)
    ensures !IsUpper(c) ==> r == c
  {
    if IsUpper(c) then (c as int + 32) as char else c
  }

  /** `toLowerCase()` on ASCII letters. */
  function LowerAscii(s: string): (r: string)
    ensures |r| == |s|
    ensures forall i :: 0 <= i < |s| ==> r[i] == LowerChar(s[i])
  {
    if s == [] then [] else [LowerChar(s[0])] + LowerAscii(s[1..])
  }

  /** The leading whitespace of `s` removed. */
  function DropSpaces(s: string): (r: string)
    ensures |r| <= |s|
    ensures r == [] || !IsSpace(r[0])
  {
    if s != [] && IsSpace(s[0]) then DropSpaces(s[1..]) else s
  }

  /** `replace(/\s+/g, '.')`: every maximal run of whitespace becomes a single dot. */
  function DotRuns(s: string): (r: string)
    ensures forall i :: 0 <= i < |r| ==> !IsSpace(r[i])
    ensures |r| <= |s|
    decreases |s|
  {
    if s == [] then []
    else if IsSpace(s[0]) then "." + DotRuns(DropSpaces(s[1..]))
    else [s[0]] + DotRuns(s[1..])
  }

  /** The address `loginUser` gives a new user: the dotted, lower-cased name at example.com. */
  function EmailFor(name: string): (email: string)
    ensures |email| >= |EMAIL_DOMAIN| && email[|email| - |EMAIL_DOMAIN|..] == EMAIL_DOMAIN
    ensures |email| <= |name| + |EMAIL_DOMAIN|
  {
    LowerAscii(DotRuns(name)) + EMAIL_DOMAIN
  }

  /** A synthesised email has no whitespace and no upper-case letter, and ends with "@example.com". */
  lemma EmailShape(name: string)
    ensures var email := EmailFor(name);
      && |email| >= |EMAIL_DOMAIN| && email[|email| - |EMAIL_DOMAIN|..] == EMAIL_DOMAIN
      && forall i :: 0 <= i < |email| ==> !IsSpace(email[i]) && !IsUpper(email[i])
  {
    var local := LowerAscii(DotRuns(name));
    assert (local + EMAIL_DOMAIN)[|local|..] == EMAIL_DOMAIN;
  }

  /** A name without whitespace keeps its characters; only its case changes. */
  lemma {:induction false} DotRunsWithoutSpaces(s: string)
    requires forall i :: 0 <= i < |s| ==> !IsSpace(s[i])
    ensures DotRuns(s) == s
  {
    if s != [] {
      DotRunsWithoutSpaces(s[1..]);
    }
  }

  /** Dropping leading whitespace and lower-casing commute. */
  lemma {:induction false} DropSpacesLower(s: string)
    ensures DropSpaces(LowerAscii(s)) == LowerAscii(DropSpaces(s))
  {
    if s != [] && IsSpace(s[0]) {
      assert LowerAscii(s)[1..] == LowerAscii(s[1..]);
      DropSpacesLower(s[1..]);
    }
  }

  /** Replacing whitespace runs and lower-casing commute. */
  lemma {:induction false} DotRunsLower(s: string)
    ensures LowerAscii(DotRuns(s)) == DotRuns(LowerAscii(s))
    decreases |s|
  {
    if s != [] {
      var t := LowerAscii(s);
      assert t[1..] == LowerAscii(s[1..]);
      if IsSpace(s[0]) {
        DropSpacesLower(s[1..]);
        DotRunsLower(DropSpaces(s[1..]));
        assert LowerAscii("." + DotRuns(DropSpaces(s[1..]))) == "." + LowerAscii(DotRuns(DropSpaces(s[1..])));
      } else {
        DotRunsLower(s[1..]);
        assert LowerAscii([s[0]] + DotRuns(s[1..])) == [LowerChar(s[0])] + LowerAscii(DotRuns(s[1..]));
      }
    }
  }

  /** Names that differ only in case get the same email address. */
  lemma SameEmailForSameName(a: string, b: string)
    requires LowerAscii(a) == LowerAscii(b)
    ensures EmailFor(a) == EmailFor(b)
  {
    DotRunsLower(a);
    DotRunsLower(b);
  }

  /** A word without whitespace passes through unchanged in front of the rest. */
  lemma {:induction false} DotRunsWord(word: string, rest: string)
    requires forall i :: 0 <= i < |word| ==> !IsSpace(word[i])
    ensures DotRuns(word + rest) == word + DotRuns(rest)
  {
    if word != [] {
      assert (word + rest)[0] == word[0];
      assert (word + rest)[1..] == word[1..] + rest;
      assert !IsSpace(word[0]);
      assert DotRuns(word + rest) == [word[0]] + DotRuns(word[1..] + rest);
      DotRunsWord(word[1..], rest);
      assert word == [word[0]] + word[1..];
    } else {
      assert word + rest == rest;
    }
  }

  /** A whitespace run in front of a word is dropped whole. */
  lemma {:induction false} DropSpacesRun(run: string, rest: string)
    requires forall i :: 0 <= i < |run| ==> IsSpace(run[i])
    requires rest == [] || !IsSpace(rest[0])
    ensures DropSpaces(run + rest) == rest
  {
    if run != [] {
      assert (run + rest)[1..] == run[1..] + rest;
      DropSpacesRun(run[1..], rest);
    } else {
      assert run + rest == rest;
    }
  }

  /** Two words separated by any non-empty run of whitespace come out joined by a single ".". */
  lemma DotRunsJoin(first: string, run: string, second: string)
    requires forall i :: 0 <= i < |first| ==> !IsSpace(first[i])
    requires |run| > 0 && forall i :: 0 <= i < |run| ==> IsSpace(run[i])
    requires forall i :: 0 <= i < |second| ==> !IsSpace(second[i])
    ensures DotRuns(first + run + second) == first + "." + second
  {
    assert second == [] || !IsSpace(second[0]);
    DotRunsWordRun(first, run, second);
    DotRunsWithoutSpaces(second);
  }

  /**
   * A maximal whitespace run becomes one dot, whatever follows it. With `DotRunsWord` this
   * pins down `DotRuns` on every name: words pass through, and each maximal run, leading and
   * trailing ones included, becomes exactly one ".".
   */
  lemma DotRunsRun(run: string, rest: string)
    requires |run| > 0 && forall i :: 0 <= i < |run| ==> IsSpace(run[i])
    requires rest == [] || !IsSpace(rest[0])
    ensures DotRuns(run + rest) == "." + DotRuns(rest)
  {
    var s := run + rest;
    assert s[0] == run[0] && s[1..] == run[1..] + rest;
    DropSpacesRun(run[1..], rest);
    assert DotRuns(s) == "." + DotRuns(DropSpaces(s[1..]));
  }

  /** A word and the whitespace run after it become the word and one dot, whatever follows. */
  lemma DotRunsWordRun(word: string, run: string, rest: string)
    requires forall i :: 0 <= i < |word| ==> !IsSpace(word[i])
    requires |run| > 0 && forall i :: 0 <= i < |run| ==> IsSpace(run[i])
    requires rest == [] || !IsSpace(rest[0])
    ensures DotRuns(word + run + rest) == word + "." + DotRuns(rest)
  {
    DotRunsWord(word, run + rest);
    assert word + run + rest == word + (run + rest);
    DotRunsRun(run, rest);
  }

  /** Three words separated by two whitespace runs come out joined by two dots. */
  lemma DotRunsThreeWords(first: string, run1: string, second: string, run2: string, third: string)
    requires forall i :: 0 <= i < |first| ==> !IsSpace(first[i])
    requires |run1| > 0 && forall i :: 0 <= i < |run1| ==> IsSpace(run1[i])
    requires |second| > 0 && forall i :: 0 <= i < |second| ==> !IsSpace(second[i])
    requires |run2| > 0 && forall i :: 0 <= i < |run2| ==> IsSpace(run2[i])
    requires forall i :: 0 <= i < |third| ==> !IsSpace(third[i])
    ensures DotRuns(first + run1 + (second + run2 + third)) == first + "." + second + "." + third
  {
    DotRunsJoin(second, run2, third);
    DotRunsWordRun(first, run1, second + run2 + third);
  }

  /** Lower-casing a concrete string, one position at a time. */
  lemma LowerAsciiOf(s: string, expected: string)
    requires |s| == |expected|
    requires forall i :: 0 <= i < |s| ==> LowerChar(s[i]) == expected[i]
    ensures LowerAscii(s) == expected
  {
  }

  /** The email of a two-word name: both words lower-cased, joined by one dot, at example.com. */
  lemma TwoWordEmail(first: string, run: string, second: string)
    requires forall i :: 0 <= i < |first| ==> !IsSpace(first[i])
    requires |run| > 0 && forall i :: 0 <= i < |run| ==> IsSpace(run[i])
    requires forall i :: 0 <= i < |second| ==> !IsSpace(second[i])
    ensures EmailFor(first + run + second) == LowerAscii(first) + "." + LowerAscii(second) + EMAIL_DOMAIN
  {
    DotRunsJoin(first, run, second);
    assert EmailFor(first + run + second) == LowerAscii(first + "." + second) + EMAIL_DOMAIN;
    LowerAsciiJoin(first, second);
  }

  lemma LowerAsciiJoin(first: string, second: string)
    ensures LowerAscii(first + "." + second) == LowerAscii(first) + "." + LowerAscii(second)
  {
    LowerAsciiConcat(first, ".");
    LowerAsciiConcat(first + ".", second);
  }

  lemma {:induction false} LowerAsciiConcat(a: string, b: string)
    ensures LowerAscii(a + b) == LowerAscii(a) + LowerAscii(b)
  {
    var l := LowerAscii(a + b);
    assert |l| == |LowerAscii(a) + LowerAscii(b)|;
    forall i | 0 <= i < |l|
      ensures l[i] == (LowerAscii(a) + LowerAscii(b))[i]
    {
      if i < |a| {
        assert (a + b)[i] == a[i];
      } else {
        assert (a + b)[i] == b[i - |a|];
      }
    }
  }

  // ---------------------------------------------------------------- handlers

  /** The `find` predicate of `loginUser`: names equal after lower-casing. */
  function SameName(name: string): User -> bool {
    (u: User) => LowerAscii(u.name) == LowerAscii(name)
  }

  /** Some stored user's name matches `name` case-insensitively. */
  ghost predicate HasUserNamed(store: map<int, User>, name: string) {
    exists k :: k in store && SameName(name)(store[k])
  }

  /** No two stored users have names that match case-insensitively. */
  ghost predicate UniqueNames(store: map<int, User>) {
    forall k1, k2 :: k1 in store && k2 in store && SameName(store[k1].name)(store[k2]) ==> k1 == k2
  }

  /**
   * `loginUser`: a missing or empty name (`!name`) is rejected with 400; otherwise the first
   * listed user whose name matches case-insensitively is returned with 200, or a new user with
   * that name and a synthesised email is created and returned with 201.
   */
  method LoginUser(service: OpenSearchUsersService, name: Option<string>) returns (response: Response<User>)
    modifies service
    ensures old(service.Valid()) ==> service.Valid()
    ensures response.status in {200, 201, 400}
    ensures (name.None? || name.value == "") <==> response.status == 400
    ensures response.status == 400 ==>
              && response.body == ErrorOnly(NAME_REQUIRED)
              && service.store == old(service.store) && service.idCounter == old(service.idCounter)
    ensures response.status == 200 ==>
              && response.body.Json? && SameName(name.value)(response.body.value)
              && response.body.value in old(service.store).Values
              && service.store == old(service.store) && service.idCounter == old(service.idCounter)
    ensures response.status == 201 ==>
              && response.body == Json(User(old(service.idCounter), name.value, EmailFor(name.value)))
              && (old(service.Valid()) ==> old(service.idCounter) !in old(service.store))
              && service.store == old(service.store)[old(service.idCounter) := response.body.value]
              && service.idCounter == old(service.idCounter) + 1
    ensures response.status == 201 ==> !HasUserNamed(old(service.store), name.value) || |old(service.store)| > MAX_RETURNED_RESULTS
    ensures response.status == 200 ==> HasUserNamed(old(service.store), name.value)
    ensures response.status != 400 ==> HasUserNamed(service.store, name.value)
    // no second account for the same name, provided the listing saw every user
    ensures UniqueNames(old(service.store)) && |old(service.store)| <= MAX_RETURNED_RESULTS ==> UniqueNames(service.store)
  {
    if name.None? || name.value == "" {
      return Response(400, ErrorOnly(NAME_REQUIRED));
    }
    var users, keys := service.All();
    var i := FindIndex(users, SameName(name.value));
    if i >= 0 {
      assert SameName(name.value)(old(service.store)[keys[i]]);
      response := Response(200, Json(users[i]));
    } else {
      if |service.store| <= MAX_RETURNED_RESULTS {
        NotFoundMeansNoUser(service.store, name.value, users, keys);
      }
      ghost var before := service.store;
      var created := service.Create(CreateUserRequest(name.value, EmailFor(name.value)));
      response := Response(201, Json(created));
      assert service.store[created.id] == created;
      if UniqueNames(before) && |before| <= MAX_RETURNED_RESULTS {
        UniqueAfterCreate(before, created);
      }
    }
  }

  /** When the listing came back complete, a name absent from it matches no stored user. */
  lemma NotFoundMeansNoUser(store: map<int, User>, name: string, users: seq<User>, keys: seq<int>)
    requires IsSearchResult(store, AnyUser, users, keys)
    requires |store| <= MAX_RETURNED_RESULTS
    requires FindIndex(users, SameName(name)) == -1
    ensures !HasUserNamed(store, name)
  {
    assert Selected(store, AnyUser) == store.Keys;
    forall k | k in store
      ensures !SameName(name)(store[k])
    {
      assert k in Selected(store, AnyUser);
      var j :| 0 <= j < |keys| && keys[j] == k;
      assert !SameName(name)(users[j]);
    }
  }

  /**
   * Storing a user whose name matches nobody's keeps the names unique, whether its key is fresh
   * or replaces a user stored there.
   */
  lemma UniqueAfterCreate(store: map<int, User>, u: User)
    requires UniqueNames(store) && !HasUserNamed(store, u.name)
    ensures UniqueNames(store[u.id := u])
  {
    var after := store[u.id := u];
    forall k1, k2 | k1 in after && k2 in after && SameName(after[k1].name)(after[k2])
      ensures k1 == k2
    {
    }
  }

  /**
   * Logging in twice under names that differ only in case (say "Alice", then "alice"): at most
   * one user is created, and both logins answer with the same user.
   */
  method LoginTwice(service: OpenSearchUsersService, name: string, sameName: string)
    returns (first: Response<User>, second: Response<User>)
    requires UniqueNames(service.store)
    requires |service.store| < MAX_RETURNED_RESULTS
    requires name != "" && LowerAscii(name) == LowerAscii(sameName)
    modifies service
    ensures first.status in {200, 201} && second.status == 200
    ensures second.body == first.body
    ensures service.store.Keys <= old(service.store).Keys + {old(service.idCounter)}
  {
    first := LoginUser(service, Some(name));
    ghost var afterFirst := service.store;
    if first.status == 201 {
      assert afterFirst[old(service.idCounter)] == first.body.value;
    }
    assert |afterFirst| <= |old(service.store)| + 1;
    assert SameName(sameName)(first.body.value);
    second := LoginUser(service, Some(sameName));
    UniqueNamesSameUser(afterFirst, first.body.value, second.body.value);
  }

  /** Under unique names, two stored users whose names match case-insensitively are the same. */
  lemma UniqueNamesSameUser(store: map<int, User>, u1: User, u2: User)
    requires UniqueNames(store) && u1 in store.Values && u2 in store.Values
    requires LowerAscii(u1.name) == LowerAscii(u2.name)
    ensures u1 == u2
  {
    KeyOf(store, u1);
    KeyOf(store, u2);
    var k1 :| k1 in store && store[k1] == u1;
    var k2 :| k2 in store && store[k2] == u2;
    assert SameName(store[k1].name)(store[k2]);
  }

  /** A stored user is stored under some key. */
  lemma KeyOf(store: map<int, User>, u: User)
    requires u in store.Values
    ensures exists k :: k in store && store[k] == u
  {
    if forall k :: k in store ==> store[k] != u {
    }
  }

  /**
   * `updateUser`: 200 with the merged user; a missing id makes the service throw, which the
   * handler answers with 500.
   */
  method UpdateUser(service: OpenSearchUsersService, id: int, partial: UserPatch) returns (response: Response<User>)
    modifies service
    ensures (old(service.Valid()) ==> service.Valid()) && service.idCounter == old(service.idCounter)
    ensures id in old(service.store) ==>
              && response == Response(200, Json(Merge(old(service.store)[id], partial)))
              && service.store == old(service.store)[id := response.body.value]
    ensures id !in old(service.store) ==>
              response == ServerError(UPDATE_FAILED, DocumentMissing(id)) && service.store == old(service.store)
  {
    var result := service.Update(id, partial);
    match result
    case Success(updated) =>
      response := Response(200, Json(updated));
    case Failure(err) =>
      response := ServerError(UPDATE_FAILED, err);
  }
}

/** Worked examples of `loginUser`'s name matching and of the email it synthesises. */
module LoginExamples {
  import opened UsersController

  /** One space between two words becomes one dot. */
  lemma BobSmithDotted()
    ensures DotRuns("Bob Smith") == "Bob.Smith"
  {
    var first, run, second := "Bob", " ", "Smith";
    DotRunsJoin(first, run, second);
    assert first + run + second == "Bob Smith" && first + "." + second == "Bob.Smith";
  }

  /** A run of mixed whitespace between two words becomes one dot. */
  lemma AnnLeeDotted()
    ensures DotRuns("Ann \t Lee") == "Ann.Lee"
  {
    var first, run, second := "Ann", " \t ", "Lee";
    DotRunsJoin(first, run, second);
    assert first + run + second == "Ann \t Lee" && first + "." + second == "Ann.Lee";
  }

  /** Three words: each of the two runs becomes its own dot. */
  lemma MaryAnnLeeDotted()
    ensures DotRuns("Mary Ann  Lee") == "Mary.Ann.Lee"
  {
    var first, run1, second, run2, third := "Mary", " ", "Ann", "  ", "Lee";
    DotRunsThreeWords(first, run1, second, run2, third);
    assert first + run1 + (second + run2 + third) == "Mary Ann  Lee";
    assert first + "." + second + "." + third == "Mary.Ann.Lee";
  }

  /** Leading and trailing whitespace are runs too: each becomes a dot. */
  lemma PaddedNameDotted()
    ensures DotRuns("  Bob ") == ".Bob."
  {
    var lead, word, trail := "  ", "Bob", " ";
    DotRunsWordRun(word, trail, []);
    DotRunsRun(lead, word + trail + []);
    assert lead + (word + trail + []) == "  Bob " && "." + (word + "." + DotRuns([])) == ".Bob.";
  }

  /** The example the handler's comment has in mind: "Bob Smith" gets bob.smith@example.com. */
  lemma BobSmithEmail()
    ensures EmailFor("Bob Smith") == "bob.smith" + EMAIL_DOMAIN
  {
    BobSmithDotted();
    LowerAsciiOf("Bob.Smith", "bob.smith");
  }

  /** "Ann \t Lee" gets ann.lee@example.com. */
  lemma AnnLeeEmail()
    ensures EmailFor("Ann \t Lee") == "ann.lee" + EMAIL_DOMAIN
  {
    AnnLeeDotted();
    LowerAsciiOf("Ann.Lee", "ann.lee");
  }

  /** "Alice" and "alice" are the same login name, so `LoginTwice` applies to them. */
  lemma AliceMatchesAlice()
    ensures LowerAscii("Alice") == LowerAscii("alice") == "alice"
  {
    LowerAsciiOf("Alice", "alice");
    LowerAsciiOf("alice", "alice");
  }
}
