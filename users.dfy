/**
 * The user-management page (src/pages/Users.tsx): the table shows the users whose
 * name or e-mail contains the search term, ignoring case, and whose status matches
 * the status drop-down; each row starts with an avatar holding the user's initials.
 */
module Users {
  import opened Collections
  import opened Text

  datatype User = User(
    id: int,
    name: string,
    email: string,
    phone: string,
    location: string,
    joinDate: string,
    lastActive: string,
    status: string,
    orders: int,
    totalSpent: string)

  /** The search half of the predicate: name or e-mail contains the term, ignoring case. */
  predicate MatchesSearch(u: User, term: string) {
    Contains(Lower(u.name), Lower(term)) || Contains(Lower(u.email), Lower(term))
  }

  /**
   * The status half: "all" lets everyone through; any other value must equal the
   * lower-cased status. The selected value itself is not lower-cased.
   */
  predicate MatchesStatus(u: User, selected: string) {
    selected == "all" || Lower(u.status) == selected
  }

  function Shown(term: string, selected: string): User -> bool {
    (u: User) => MatchesSearch(u, term) && MatchesStatus(u, selected)
  }

  /** The complement of `Shown`: the users the table leaves out. */
  function Hidden(term: string, selected: string): User -> bool {
    (u: User) => !(MatchesSearch(u, term) && MatchesStatus(u, selected))
  }

  /** `filteredUsers` for a search term and a selected status. */
  function FilteredUsers(users: seq<User>, term: string, selected: string): seq<User> {
    Filter(Shown(term, selected), users)
  }

  /**
   * The table is an order-preserving subsequence of the users, so the footer's
   * "Showing n of m" never has n above m, and a user is in it exactly when both
   * halves of the predicate accept it; shown and hidden users together are all of them.
   */
  lemma FilteredUsersSpec(users: seq<User>, term: string, selected: string)
    ensures IsSubsequence(FilteredUsers(users, term, selected), users)
    ensures |FilteredUsers(users, term, selected)| <= |users|
    ensures forall u :: u in FilteredUsers(users, term, selected) <==>
      u in users && MatchesSearch(u, term) && MatchesStatus(u, selected)
    ensures |FilteredUsers(users, term, selected)| + |Filter(Hidden(term, selected), users)| == |users|
  {
    FilterPartition(Shown(term, selected), Hidden(term, selected), users);
    FilterIsSubsequence(Shown(term, selected), users);
    forall u ensures u in FilteredUsers(users, term, selected) <==>
      u in users && MatchesSearch(u, term) && MatchesStatus(u, selected)
    {
      FilterMembership(Shown(term, selected), users, u);
    }
  }

  /** Under a status other than "all", every user shown has exactly that lower-cased status. */
  lemma StatusFilterExact(users: seq<User>, term: string, selected: string)
    requires selected != "all"
    ensures forall i :: 0 <= i < |FilteredUsers(users, term, selected)| ==>
      Lower(FilteredUsers(users, term, selected)[i].status) == selected
  {
  }

  /** "active" does not match a user whose status is "Inactive", and vice versa. */
  lemma ActiveIsNotInactive(u: User)
    ensures u.status == "Inactive" ==> !MatchesStatus(u, "active")
    ensures u.status == "Active" ==> !MatchesStatus(u, "inactive")
    ensures u.status == "Active" ==> MatchesStatus(u, "active")
  {
    if u.status == "Inactive" {
      assert Lower(u.status)[0] == 'i';
    } else if u.status == "Active" {
      assert Lower(u.status) == "active";
    }
  }

  /** A selected status holding an upper-case letter (other than "all") shows nobody. */
  lemma UppercaseStatusShowsNobody(users: seq<User>, term: string, selected: string, k: nat)
    requires selected != "all"
    requires k < |selected| && IsUpper(selected[k])
    ensures FilteredUsers(users, term, selected) == []
  {
    forall i | 0 <= i < |users| ensures !Shown(term, selected)(users[i]) { }
    FilterEmpty(Shown(term, selected), users);
  }

  /** With an empty search term and the status "all", every user is shown, in order. */
  lemma EmptySearchShowsAll(users: seq<User>)
    ensures FilteredUsers(users, "", "all") == users
  {
    forall i | 0 <= i < |users| ensures Shown("", "all")(users[i]) {
      ContainsEmpty(Lower(users[i].name));
    }
    FilterKeepsAll(Shown("", "all"), users);
  }

  /**
   * Typing more narrows the table: when the old term occurs in the new one, the
   * users shown for the new term are a subsequence of those shown for the old term.
   */
  lemma NarrowingSearch(users: seq<User>, oldTerm: string, newTerm: string, selected: string)
    requires Contains(newTerm, oldTerm)
    ensures IsSubsequence(FilteredUsers(users, newTerm, selected), FilteredUsers(users, oldTerm, selected))
    ensures |FilteredUsers(users, newTerm, selected)| <= |FilteredUsers(users, oldTerm, selected)|
  {
    LowerContains(newTerm, oldTerm);
    forall i | 0 <= i < |users| && Shown(newTerm, selected)(users[i])
      ensures Shown(oldTerm, selected)(users[i])
    {
      var u := users[i];
      if Contains(Lower(u.name), Lower(newTerm)) {
        ContainsTransitive(Lower(u.name), Lower(newTerm), Lower(oldTerm));
      } else {
        ContainsTransitive(Lower(u.email), Lower(newTerm), Lower(oldTerm));
      }
    }
    FilterMonotone(Shown(newTerm, selected), Shown(oldTerm, selected), users);
    SubsequenceLength(FilteredUsers(users, newTerm, selected), FilteredUsers(users, oldTerm, selected));
  }

  /** The search ignores the case of the term: a term and its lower-case form show the same users. */
  lemma SearchIgnoresCase(users: seq<User>, term: string, selected: string)
    ensures FilteredUsers(users, term, selected) == FilteredUsers(users, Lower(term), selected)
  {
    LowerIdempotent(term);
    FilterAgree(Shown(term, selected), Shown(Lower(term), selected), users);
  }

  // ----- avatar initials -----

  /** `s.split(' ')`: the pieces between single spaces, empty pieces included. */
  function Split(s: string): (r: seq<string>)
    ensures |r| >= 1
    ensures forall i :: 0 <= i < |r| ==> ' ' !in r[i]
  {
    if s == [] then [[]]
    else if s[0] == ' ' then [[]] + Split(s[1..])
    else
      var rest := Split(s[1..]);
      [[s[0]] + rest[0]] + rest[1..]
  }

  /** `pieces.join(' ')`. */
  function Join(pieces: seq<string>): string {
    if pieces == [] then []
    else if |pieces| == 1 then pieces[0]
    else pieces[0] + [' '] + Join(pieces[1..])
  }

  /** `n[0]` as `join` renders it: the first character, or nothing for an empty piece. */
  function FirstChar(w: string): string {
    if w == [] then [] else [w[0]]
  }

  /** `.map(n => n[0]).join('')`. */
  function FirstChars(pieces: seq<string>): string {
    if pieces == [] then [] else FirstChar(pieces[0]) + FirstChars(pieces[1..])
  }

  /** The avatar text: `name.split(' ').map(n => n[0]).join('')`. */
  function Initials(name: string): string {
    FirstChars(Split(name))
  }

  /**
   * The characters of `s` that begin a word: not a space, and either first in `s`
   * (when `atStart`) or right after a space. An independent reading of "initials".
   */
  function WordStarts(s: string, atStart: bool): string {
    if s == [] then []
    else (if s[0] != ' ' && atStart then [s[0]] else []) + WordStarts(s[1..], s[0] == ' ')
  }

  /** Splitting on spaces and joining with spaces gives the string back. */
  lemma {:induction false} JoinSplit(s: string)
    ensures Join(Split(s)) == s
  {
    if s != [] {
      JoinSplit(s[1..]);
      var rest := Split(s[1..]);
      if s[0] == ' ' {
        assert Split(s)[1..] == rest;
      } else {
        var r := Split(s);
        assert r[0] == [s[0]] + rest[0] && r[1..] == rest[1..];
        if |rest| == 1 {
          assert Join(r) == r[0];
        } else {
          assert Join(r) == r[0] + [' '] + Join(rest[1..]);
          assert Join(rest) == rest[0] + [' '] + Join(rest[1..]);
        }
      }
    }
  }

  /** Every piece but the first starts right after a space; what it contributes follows. */
  lemma {:induction false} FirstCharsSplit(s: string)
    ensures FirstChars(Split(s)) == WordStarts(s, true)
    ensures FirstChars(Split(s)[1..]) == WordStarts(s, false)
  {
    if s != [] {
      FirstCharsSplit(s[1..]);
      var rest := Split(s[1..]);
      var r := Split(s);
      if s[0] == ' ' {
        assert r[1..] == rest;
        assert FirstChars(r) == FirstChar([]) + FirstChars(r[1..]);
      } else {
        assert r[0] == [s[0]] + rest[0] && r[1..] == rest[1..];
        assert FirstChars(rest) == FirstChar(rest[0]) + FirstChars(rest[1..]);
      }
    }
  }

  /**
   * The initials are the first character of every space-separated word, in order:
   * empty pieces left by leading, trailing or doubled spaces add nothing.
   */
  lemma InitialsAreWordStarts(name: string)
    ensures Initials(name) == WordStarts(name, true)
  {
    FirstCharsSplit(name);
  }

  /** No initial is a space, and there are never more initials than characters. */
  lemma {:induction false} WordStartsBounds(s: string, atStart: bool)
    ensures |WordStarts(s, atStart)| <= |s|
    ensures ' ' !in WordStarts(s, atStart)
  {
    if s != [] {
      WordStartsBounds(s[1..], s[0] == ' ');
    }
  }

  /** Splitting a word without spaces followed by more text extends the first piece. */
  lemma {:induction false} SplitWord(w: string, s: string)
    requires ' ' !in w
    ensures Split(w + s) == [w + Split(s)[0]] + Split(s)[1..]
  {
    if w != [] {
      SplitWord(w[1..], s);
      var t, r := w + s, Split(s);
      assert t[0] == w[0] && t[0] != ' ';
      assert t[1..] == w[1..] + s;
      var rest := Split(t[1..]);
      assert rest[0] == w[1..] + r[0] && rest[1..] == r[1..];
      assert Split(t) == [[t[0]] + rest[0]] + rest[1..];
      assert [t[0]] + rest[0] == w + r[0];
    } else {
      assert w + s == s;
      var r := Split(s);
      assert r == [r[0]] + r[1..];
      assert w + r[0] == r[0];
    }
  }

  /** Joining pieces without spaces and splitting again gives the pieces back. */
  lemma {:induction false} SplitJoin(pieces: seq<string>)
    requires |pieces| >= 1
    requires forall i :: 0 <= i < |pieces| ==> ' ' !in pieces[i]
    ensures Split(Join(pieces)) == pieces
  {
    if |pieces| == 1 {
      SplitWord(pieces[0], []);
      assert pieces[0] + [] == pieces[0];
    } else {
      var tail := Join(pieces[1..]);
      SplitJoin(pieces[1..]);
      SplitWord(pieces[0], [' '] + tail);
      assert ([' '] + tail)[1..] == tail;
      assert Split([' '] + tail) == [[]] + Split(tail);
      assert pieces[0] + [' '] + tail == pieces[0] + ([' '] + tail);
      assert Split(Join(pieces)) == [pieces[0] + []] + pieces[1..];
      assert pieces[0] + [] == pieces[0];
    }
  }

  /** The avatar of a two-word name holds the first letter of each word. */
  lemma InitialsExample()
    ensures Initials("Sarah Johnson") == "SJ"
  {
    SplitJoin(["Sarah", "Johnson"]);
    assert Join(["Sarah", "Johnson"]) == "Sarah Johnson";
  }

}
