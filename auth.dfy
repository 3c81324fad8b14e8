/** The authentication store: the signed-in user, the loading and error
    cells, the sign-in dialogs, and the values derived from the user for the
    menu and the route guard. */
module Auth {
  import opened Common

  /** The signed-in user; an absent display name or e-mail is "". */
  datatype User = User(displayName: string, email: string, emailVerified: bool)

  datatype ModalMode = LoginMode | RegisterMode | ResetMode

  class AuthState {
    var currentUser: Option<User>
    var loading: bool
    var error: Option<string>
    var initialized: bool
    var showLoginModal: bool
    var showRegisterModal: bool
    var modalMode: ModalMode

    /** The cells' initial values: no user, not loading, no error, not yet
        initialised, both dialogs hidden, login mode. */
    constructor()
      ensures currentUser.None? && !loading && error.None? && !initialized
      ensures !showLoginModal && !showRegisterModal && modalMode == LoginMode
    {
      currentUser := None;
      loading := false;
      error := None;
      initialized := false;
      showLoginModal := false;
      showRegisterModal := false;
      modalMode := LoginMode;
    }

    method OpenLoginModal()
      modifies this`modalMode, this`showLoginModal, this`error
      ensures modalMode == LoginMode && showLoginModal && error.None?
    {
      modalMode := LoginMode;
      showLoginModal := true;
      error := None;
    }

    method OpenRegisterModal()
      modifies this`modalMode, this`showRegisterModal, this`error
      ensures modalMode == RegisterMode && showRegisterModal && error.None?
    {
      modalMode := RegisterMode;
      showRegisterModal := true;
      error := None;
    }

    /** The reset form lives in the login dialog. */
    method OpenResetPasswordModal()
      modifies this`modalMode, this`showLoginModal, this`error
      ensures modalMode == ResetMode && showLoginModal && error.None?
    {
      modalMode := ResetMode;
      showLoginModal := true;
      error := None;
    }

    /** Hides both dialogs and clears the error; the mode is kept. */
    method CloseAuthModals()
      modifies this`showLoginModal, this`showRegisterModal, this`error
      ensures !showLoginModal && !showRegisterModal && error.None?
    {
      showLoginModal := false;
      showRegisterModal := false;
      error := None;
    }

    function Status(): (s: AuthStatus)
      reads this
      ensures s == AuthStatusOf(currentUser, loading, initialized)
      ensures s != Loading ==> (s == Unauthenticated <==> currentUser.None?)
    {
      AuthStatusOf(currentUser, loading, initialized)
    }
  }

  // ---------------------------------------------------------------------
  // Derived values
  // ---------------------------------------------------------------------

  /** `isAuthenticatedAtom`: a user is signed in, which is also exactly when
      the header has a name to show. */
  predicate IsAuthenticated(user: Option<User>): (r: bool)
    ensures r <==> UserDisplayName(user) != []
  {
    user.Some?
  }

  /** `user?.emailVerified || false`. */
  predicate IsEmailVerified(user: Option<User>): (r: bool)
    ensures r ==> IsAuthenticated(user)
    ensures user.Some? ==> (r <==> user.value.emailVerified)
  {
    user.Some? && user.value.emailVerified
  }

  /** `userDisplayNameAtom`: the display name, else the e-mail, else `User`;
      the empty string without a user. */
  function UserDisplayName(user: Option<User>): (name: string)
    ensures user.None? <==> name == []
    ensures user.Some? && user.value.displayName != [] ==> name == user.value.displayName
    ensures user.Some? && user.value.displayName == [] && user.value.email != [] ==> name == user.value.email
    ensures user.Some? && user.value.displayName == [] && user.value.email == [] ==> name == "User"
  {
    match user
    case None => ""
    case Some(u) => if u.displayName != [] then u.displayName else if u.email != [] then u.email else "User"
  }

  datatype AuthStatus = Loading | Authenticated | Unverified | Unauthenticated

  /** `authStatusAtom`: loading until initialised and while an operation
      runs; afterwards decided by the user and its verification flag. */
  function AuthStatusOf(user: Option<User>, loading: bool, initialized: bool): (s: AuthStatus)
    ensures s == Loading <==> !initialized || loading
    ensures s == Authenticated <==> initialized && !loading && IsEmailVerified(user)
    ensures s == Unverified <==> initialized && !loading && IsAuthenticated(user) && !IsEmailVerified(user)
    ensures s == Unauthenticated <==> initialized && !loading && !IsAuthenticated(user)
  {
    if !initialized || loading then Loading
    else match user
      case Some(u) => if u.emailVerified then Authenticated else Unverified
      case None => Unauthenticated
  }

  /** Once settled, the status says exactly whether a user is signed in. */
  lemma StatusAgreesWithUser(user: Option<User>, loading: bool, initialized: bool)
    requires initialized && !loading
    ensures AuthStatusOf(user, loading, initialized) in {Authenticated, Unverified} <==> IsAuthenticated(user)
  {
  }

  // ---------------------------------------------------------------------
  // Initials
  // ---------------------------------------------------------------------

  /** The text the initials are taken from: display name, else e-mail. */
  function InitialsSource(u: User): string
  {
    if u.displayName != [] then u.displayName else u.email
  }

  /** What `userInitialsAtom` evaluates to: a string, or a thrown
      `TypeError`. */
  datatype InitialsOutcome = Initials(text: string) | ThrowsTypeError

  /** `word[0]` used in string concatenation: the first character, or the
      text `undefined` for an empty word. */
  function FirstOrUndefined(word: string): string
  {
    if word == [] then "undefined" else [word[0]]
  }

  /** `userInitialsAtom` as it is written. `name.split(' ')` yields empty
      pieces for a leading, trailing or doubled space, and `words[i][0]` of an
      empty piece is `undefined`: one such piece is concatenated as the text
      `undefined`; two make the sum `NaN`, whose `toUpperCase` throws. */
  function UserInitialsAsWritten(user: Option<User>): (r: InitialsOutcome)
    ensures user.None? ==> r == Initials("")
  {
    match user
    case None => Initials("")
    case Some(u) =>
      var words := Split(InitialsSource(u), ' ');
      if |words| >= 2 then
        if words[0] == [] && words[1] == [] then ThrowsTypeError
        else Initials(UpperString(FirstOrUndefined(words[0]) + FirstOrUndefined(words[1])))
      else if |words| == 1 then Initials(UpperString(Prefix(words[0], 2)))
      else Initials("U")
  }

  /** A display name with a leading space gives `UNDEFINEDA`. */
  lemma LeadingSpaceInitials()
    ensures UserInitialsAsWritten(Some(User(" Ada", "", false))) == Initials("UNDEFINEDA")
  {
    LeadingSpaceConcatenates();
    UpperUndefinedA();
  }

  lemma LeadingSpaceConcatenates()
    ensures UserInitialsAsWritten(Some(User(" Ada", "", false))) == Initials(UpperString("undefinedA"))
  {
    var name := " Ada";
    assert name[1..] == "Ada";
    SplitWithoutSeparator("Ada", ' ');
    assert Split(name, ' ') == ["", "Ada"];
    assert FirstOrUndefined("") + FirstOrUndefined("Ada") == "undefinedA";
  }

  lemma UpperUndefinedA()
    ensures UpperString("undefinedA") == "UNDEFINEDA"
  {
    var up := UpperString("undefinedA");
    forall i | 0 <= i < 10
      ensures up[i] == "UNDEFINEDA"[i]
    {
      assert up[i] == Upper("undefinedA"[i]);
    }
  }

  /** A name without spaces takes the one-word branch; in particular a user
      with neither display name nor e-mail gets empty initials, never the
      `U` fallback. */
  lemma OneWordBranch(u: User)
    requires ' ' !in InitialsSource(u)
    ensures UserInitialsAsWritten(Some(u)) == Initials(UpperString(Prefix(InitialsSource(u), 2)))
    ensures InitialsSource(u) == [] ==> UserInitialsAsWritten(Some(u)) == Initials("")
  {
    SplitWithoutSeparator(InitialsSource(u), ' ');
  }

  /** A display name of a single space throws. */
  lemma SingleSpaceThrows()
    ensures UserInitialsAsWritten(Some(User(" ", "", false))) == ThrowsTypeError
  {
    var name := " ";
    assert name[1..] == [];
    assert Split(name, ' ') == ["", ""];
  }

  function NonEmpty(): string -> bool
  {
    (w: string) => w != []
  }

  /** The words of a name: the pieces between spaces that are not empty. */
  function Words(name: string): (ws: seq<string>)
    ensures forall i :: 0 <= i < |ws| ==> ws[i] != [] && ' ' !in ws[i]
    ensures forall i, j :: 0 <= i < |ws| && 0 <= j < |ws[i]| ==> ws[i][j] in name
  {
    Filter(Split(name, ' '), NonEmpty())
  }

  /** The initials as evidently intended: the first letters of the first two
      words, the first two letters of a single word, and `U` for a name with
      no word at all; the empty string without a user. */
  function UserInitials(user: Option<User>): (r: string)
    ensures user.None? <==> r == []
    ensures user.Some? ==> 1 <= |r| <= 2
    ensures user.Some? && Words(InitialsSource(user.value)) == [] ==> r == "U"
    ensures user.Some? && Words(InitialsSource(user.value)) != [] ==>
              forall i :: 0 <= i < |r| ==>
                (exists j :: 0 <= j < |InitialsSource(user.value)| && r[i] == Upper(InitialsSource(user.value)[j]))
  {
    match user
    case None => ""
    case Some(u) =>
      var name := InitialsSource(u);
      var words := Words(name);
      var r :=
        if |words| >= 2 then UpperString([words[0][0], words[1][0]])
        else if |words| == 1 then UpperString(Prefix(words[0], 2))
        else "U";
      assert words != [] ==> forall i :: 0 <= i < |r| ==> exists j :: 0 <= j < |name| && r[i] == Upper(name[j]) by {
        if words != [] {
          forall i | 0 <= i < |r|
            ensures exists j :: 0 <= j < |name| && r[i] == Upper(name[j])
          {
            var c := if |words| >= 2 then [words[0][0], words[1][0]][i] else words[0][i];
            assert r[i] == Upper(c);
            assert c in name;
          }
        }
      }
      r
  }

  /** Spaces in front of a name add no word. */
  lemma {:induction false} WordsAfterSpaces(spaces: string, s: string)
    requires forall i :: 0 <= i < |spaces| ==> spaces[i] == ' '
    ensures Words(spaces + s) == Words(s)
    decreases |spaces|
  {
    if spaces != [] {
      var t := spaces[1..] + s;
      var empty: string := [];
      assert spaces + s == empty + [' '] + t;
      SplitWord(empty, t, ' ');
      assert Split(spaces + s, ' ') == [empty] + Split(t, ' ');
      FilterAppend([empty], Split(t, ' '), NonEmpty());
      FilterNone(empty, NonEmpty());
      assert Words(spaces + s) == Words(t);
      WordsAfterSpaces(spaces[1..], s);
    } else {
      assert spaces + s == s;
    }
  }

  /** A name of spaces only has no word. */
  lemma WordsOfSpaces(spaces: string)
    requires forall i :: 0 <= i < |spaces| ==> spaces[i] == ' '
    ensures Words(spaces) == []
  {
    var empty: string := [];
    WordsAfterSpaces(spaces, empty);
    assert spaces + empty == spaces;
    FilterNone(empty, NonEmpty());
  }

  /** A word followed by a space is the first word of the name. */
  lemma WordsOfLeadingWord(w: string, u: string)
    requires w != [] && ' ' !in w
    ensures Words(w + [' '] + u) == [w] + Words(u)
  {
    SplitWord(w, u, ' ');
    FilterAppend([w], Split(u, ' '), NonEmpty());
    FilterKeepsAll([w], NonEmpty());
  }

  /** A word followed by nothing or by a space opens the list of words. */
  lemma WordsOfWordThenRest(w: string, rest: string)
    requires w != [] && ' ' !in w && (rest == [] || rest[0] == ' ')
    ensures |Words(w + rest)| >= 1 && Words(w + rest)[0] == w
  {
    if rest == [] {
      assert w + rest == w;
      SplitWithoutSeparator(w, ' ');
      FilterKeepsAll([w], NonEmpty());
    } else {
      assert w + rest == w + [' '] + rest[1..];
      WordsOfLeadingWord(w, rest[1..]);
    }
  }

  /** Two words separated by spaces, after leading spaces, are the first two
      words of the name. */
  lemma WordsOfTwoWords(name: string, pre: string, w1: string, sep: string, w2: string, rest: string)
    requires name == pre + w1 + sep + w2 + rest
    requires forall i :: 0 <= i < |pre| ==> pre[i] == ' '
    requires sep != [] && forall i :: 0 <= i < |sep| ==> sep[i] == ' '
    requires w1 != [] && ' ' !in w1 && w2 != [] && ' ' !in w2
    requires rest == [] || rest[0] == ' '
    ensures |Words(name)| >= 2 && Words(name)[0] == w1 && Words(name)[1] == w2
  {
    var tail := sep[1..] + (w2 + rest);
    assert name == pre + (w1 + [' '] + tail);
    WordsAfterSpaces(pre, w1 + [' '] + tail);
    WordsOfLeadingWord(w1, tail);
    WordsAfterSpaces(sep[1..], w2 + rest);
    WordsOfWordThenRest(w2, rest);
  }

  /** One word surrounded by spaces is the only word of the name. */
  lemma WordsOfOneWord(name: string, pre: string, w: string, post: string)
    requires name == pre + w + post
    requires forall i :: 0 <= i < |pre| ==> pre[i] == ' '
    requires forall i :: 0 <= i < |post| ==> post[i] == ' '
    requires w != [] && ' ' !in w
    ensures Words(name) == [w]
  {
    assert name == pre + (w + post);
    WordsAfterSpaces(pre, w + post);
    if post == [] {
      assert w + post == w;
      SplitWithoutSeparator(w, ' ');
      FilterKeepsAll([w], NonEmpty());
    } else {
      assert w + post == w + [' '] + post[1..];
      WordsOfLeadingWord(w, post[1..]);
      WordsOfSpaces(post[1..]);
    }
  }

  /** The intended initials in terms of the words of the name. */
  lemma InitialsFromWords(u: User)
    ensures var ws := Words(InitialsSource(u));
            |ws| >= 2 ==> UserInitials(Some(u)) == [Upper(ws[0][0]), Upper(ws[1][0])]
    ensures var ws := Words(InitialsSource(u));
            |ws| == 1 ==> UserInitials(Some(u)) == UpperString(Prefix(ws[0], 2))
  {
  }

  /** A name with two words or more, whatever spaces surround them, gives the
      upper-cased first letters of its first two words. */
  lemma InitialsOfTwoWords(u: User, pre: string, w1: string, sep: string, w2: string, rest: string)
    requires InitialsSource(u) == pre + w1 + sep + w2 + rest
    requires forall i :: 0 <= i < |pre| ==> pre[i] == ' '
    requires sep != [] && forall i :: 0 <= i < |sep| ==> sep[i] == ' '
    requires w1 != [] && ' ' !in w1 && w2 != [] && ' ' !in w2
    requires rest == [] || rest[0] == ' '
    ensures UserInitials(Some(u)) == [Upper(w1[0]), Upper(w2[0])]
  {
    WordsOfTwoWords(InitialsSource(u), pre, w1, sep, w2, rest);
    InitialsFromWords(u);
  }

  /** A name with exactly one word, whatever spaces surround it, gives the
      word's first two letters upper-cased. */
  lemma InitialsOfOneWord(u: User, pre: string, w: string, post: string)
    requires InitialsSource(u) == pre + w + post
    requires forall i :: 0 <= i < |pre| ==> pre[i] == ' '
    requires forall i :: 0 <= i < |post| ==> post[i] == ' '
    requires w != [] && ' ' !in w
    ensures UserInitials(Some(u)) == UpperString(Prefix(w, 2))
  {
    WordsOfOneWord(InitialsSource(u), pre, w, post);
    InitialsFromWords(u);
  }

  /** A name of spaces only, the empty name included, gives `U`. */
  lemma InitialsOfNoWord(u: User)
    requires forall i :: 0 <= i < |InitialsSource(u)| ==> InitialsSource(u)[i] == ' '
    ensures UserInitials(Some(u)) == "U"
  {
    WordsOfSpaces(InitialsSource(u));
  }

  /** A word, one space, a second word, then nothing or a space: the first
      two pieces of the split are the two words. */
  lemma SplitOfTwoWords(name: string, w1: string, w2: string, rest: string)
    requires name == w1 + " " + w2 + rest
    requires w1 != [] && ' ' !in w1 && w2 != [] && ' ' !in w2
    requires rest == [] || rest[0] == ' '
    ensures |Split(name, ' ')| >= 2 && Split(name, ' ')[0] == w1 && Split(name, ' ')[1] == w2
  {
    assert name == w1 + [' '] + (w2 + rest);
    SplitWord(w1, w2 + rest, ' ');
    if rest == [] {
      assert w2 + rest == w2;
      SplitWithoutSeparator(w2, ' ');
    } else {
      assert w2 + rest == w2 + [' '] + rest[1..];
      SplitWord(w2, rest[1..], ' ');
    }
  }

  /** The code as written on a name that starts with a word followed by a
      single space and a second word: the upper-cased first letters of the
      two words. */
  lemma TwoWordBranch(u: User, w1: string, w2: string, rest: string)
    requires InitialsSource(u) == w1 + " " + w2 + rest
    requires w1 != [] && ' ' !in w1 && w2 != [] && ' ' !in w2
    requires rest == [] || rest[0] == ' '
    ensures UserInitialsAsWritten(Some(u)) == Initials([Upper(w1[0]), Upper(w2[0])])
  {
    SplitOfTwoWords(InitialsSource(u), w1, w2, rest);
    assert FirstOrUndefined(w1) + FirstOrUndefined(w2) == [w1[0], w2[0]];
  }

  /** On a name without empty pieces (no leading, trailing or doubled
      space) the code as written already gives the intended initials. */
  lemma InitialsAgreeOnWellSpacedNames(u: User)
    requires forall i :: 0 <= i < |Split(InitialsSource(u), ' ')| ==> Split(InitialsSource(u), ' ')[i] != []
    ensures UserInitialsAsWritten(Some(u)) == Initials(UserInitials(Some(u)))
  {
    var pieces := Split(InitialsSource(u), ' ');
    FilterKeepsAll(pieces, NonEmpty());
    if |pieces| >= 2 {
      assert FirstOrUndefined(pieces[0]) + FirstOrUndefined(pieces[1]) == [pieces[0][0], pieces[1][0]];
    }
  }
}
