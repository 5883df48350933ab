/** The platform-settings page: six editable lists of search terms (main
    terms, synonyms and excluded terms, for the brand and for the
    competitors), each edited by a term manager, plus the search preview. */
module Profile {
  import opened Common
  import Strings

  /** One group of terms (`TermGroup`). */
  datatype TermGroup = TermGroup(mainTerms: seq<string>, synonyms: seq<string>, excludedTerms: seq<string>)

  /** The whole configuration (`SearchTerms`). */
  datatype SearchTerms = SearchTerms(brand: TermGroup, competitors: TermGroup)

  datatype SectionKey = Brand | Competitors
  datatype GroupKey = MainTerms | Synonyms | ExcludedTerms

  const EmptyGroup := TermGroup([], [], [])
  const EmptySearchTerms := SearchTerms(EmptyGroup, EmptyGroup)
  const NoPermissionMessage := "Você não tem permissão para executar esta ação."

  function GroupOf(t: SearchTerms, s: SectionKey): TermGroup
  {
    match s
    case Brand => t.brand
    case Competitors => t.competitors
  }

  function TermsOf(g: TermGroup, k: GroupKey): seq<string>
  {
    match k
    case MainTerms => g.mainTerms
    case Synonyms => g.synonyms
    case ExcludedTerms => g.excludedTerms
  }

  /** The list at one of the six positions. */
  function TermsAt(t: SearchTerms, s: SectionKey, k: GroupKey): seq<string>
  {
    TermsOf(GroupOf(t, s), k)
  }

  // ---- TermManager ----

  /** The list `handleAddTerm` hands to `onTermsChange`, or None when the
      click does nothing: the raw input must be non-empty and not already in
      the list, and then its trimmed form is appended. */
  function AddedTerms(terms: seq<string>, input: string): (r: Option<seq<string>>)
    ensures r.None? <==> input == "" || input in terms
    ensures r.Some? ==> |r.value| == |terms| + 1 && r.value[..|terms|] == terms
                        && r.value[|terms|] == Strings.Trim(input)
  {
    if input != "" && input !in terms then Some(terms + [Strings.Trim(input)]) else None
  }

  /** Removing the term that was just added gives back the list without it:
      adding a new trimmed term and removing it again is the identity. */
  lemma AddThenRemove(terms: seq<string>, input: string)
    requires AddedTerms(terms, input).Some?
    requires Strings.Trim(input) !in terms
    ensures RemoveAll(AddedTerms(terms, input).value, Strings.Trim(input)) == terms
  {
    var t := Strings.Trim(input);
    RemoveAllAppend(terms, [t], t);
    RemoveAllAbsent(terms, t);
  }

  /** When the input carries no surrounding whitespace, adding keeps a
      duplicate-free list duplicate-free. */
  lemma AddTrimmedKeepsNoDuplicates(terms: seq<string>, input: string)
    requires NoDuplicates(terms)
    requires Strings.Trim(input) == input
    ensures AddedTerms(terms, input).Some? ==> NoDuplicates(AddedTerms(terms, input).value)
  {
  }

  /** The duplicate check looks at the untrimmed input: "a " is accepted
      next to an existing "a" and stored as a second "a". */
  lemma AddUntrimmedDuplicates()
    ensures AddedTerms(["a"], "a ") == Some(["a", "a"])
  {
    assert !Strings.IsWhitespace('a') && Strings.IsWhitespace(' ');
    assert Strings.TrimStart("a ") == "a ";
    assert "a "[..1] == "a";
    assert Strings.TrimEnd("a") == "a";
    assert Strings.TrimEnd("a ") == "a";
    assert Strings.Trim("a ") == "a";
    assert "a " !in ["a"];
    assert AddedTerms(["a"], "a ") == Some(["a"] + [Strings.Trim("a ")]);
    assert ["a"] + ["a"] == ["a", "a"];
  }

  /** Whitespace-only input is not empty, so it passes the check and stores
      the empty string. */
  lemma AddWhitespaceOnly(terms: seq<string>)
    requires " " !in terms
    ensures AddedTerms(terms, " ") == Some(terms + [""])
  {
    Strings.TrimEmptyIff(" ");
  }

  /** The local state of one term manager: the contents of its text input. */
  class TermManager {
    var inputValue: string

    constructor ()
      ensures inputValue == ""
    {
      inputValue := "";
    }

    method TypeInput(v: string)
      modifies this
      ensures inputValue == v
    {
      inputValue := v;
    }

    /** `handleAddTerm`: reports the new list when there is one, and clears
        the input exactly then. */
    method HandleAddTerm(terms: seq<string>) returns (change: Option<seq<string>>)
      modifies this
      ensures change == AddedTerms(terms, old(inputValue))
      ensures inputValue == (if change.Some? then "" else old(inputValue))
    {
      change := AddedTerms(terms, inputValue);
      if change.Some? {
        inputValue := "";
      }
    }

    /** `handleRemoveTerm`: the list without any occurrence of the term; the
        input is untouched. */
    method HandleRemoveTerm(terms: seq<string>, termToRemove: string) returns (change: seq<string>)
      ensures change == RemoveAll(terms, termToRemove)
    {
      change := RemoveAll(terms, termToRemove);
    }
  }

  // ---- the settings page ----

  /** `handleTermGroupChange`'s nested update: exactly one list of one
      section is replaced, the other five are left as they were. */
  function WithGroup(t: SearchTerms, s: SectionKey, k: GroupKey, newTerms: seq<string>): (r: SearchTerms)
    ensures TermsAt(r, s, k) == newTerms
    ensures forall s', k' :: (s' != s || k' != k) ==> TermsAt(r, s', k') == TermsAt(t, s', k')
  {
    var g := GroupOf(t, s);
    var g' := match k
      case MainTerms => g.(mainTerms := newTerms)
      case Synonyms => g.(synonyms := newTerms)
      case ExcludedTerms => g.(excludedTerms := newTerms);
    match s
    case Brand => t.(brand := g')
    case Competitors => t.(competitors := g')
  }

  /** Writing back the list that is already there changes nothing. */
  lemma WithGroupSame(t: SearchTerms, s: SectionKey, k: GroupKey)
    ensures WithGroup(t, s, k, TermsAt(t, s, k)) == t
  {
    var r := WithGroup(t, s, k, TermsAt(t, s, k));
    assert TermsAt(r, Brand, MainTerms) == TermsAt(t, Brand, MainTerms);
    assert TermsAt(r, Brand, Synonyms) == TermsAt(t, Brand, Synonyms);
    assert TermsAt(r, Brand, ExcludedTerms) == TermsAt(t, Brand, ExcludedTerms);
    assert TermsAt(r, Competitors, MainTerms) == TermsAt(t, Competitors, MainTerms);
    assert TermsAt(r, Competitors, Synonyms) == TermsAt(t, Competitors, Synonyms);
    assert TermsAt(r, Competitors, ExcludedTerms) == TermsAt(t, Competitors, ExcludedTerms);
  }

  /** `isReadOnly`: everyone but an `ADM` user, including nobody signed in. */
  predicate IsReadOnly(user: Option<AppUser>)
  {
    user.None? || user.value.role != Some(ADM)
  }

  lemma ReadOnlyUnlessAdmin(user: Option<AppUser>)
    ensures IsReadOnly(user) <==> !IsAdmin(user)
    ensures IsReadOnly(None)
  {
  }

  /** `hasBrandTerms` / `hasCompetitorTerms`: a group has something to search
      for when its main terms or its synonyms are non-empty. */
  predicate HasSearchTerms(g: TermGroup)
  {
    |g.mainTerms| > 0 || |g.synonyms| > 0
  }

  predicate HasBrandTerms(t: SearchTerms) { HasSearchTerms(t.brand) }
  predicate HasCompetitorTerms(t: SearchTerms) { HasSearchTerms(t.competitors) }

  /** Excluded terms never decide whether a section has terms: editing them
      leaves both predicates as they were. */
  lemma ExcludedTermsIgnored(t: SearchTerms, s: SectionKey, newTerms: seq<string>)
    ensures HasBrandTerms(WithGroup(t, s, ExcludedTerms, newTerms)) == HasBrandTerms(t)
    ensures HasCompetitorTerms(WithGroup(t, s, ExcludedTerms, newTerms)) == HasCompetitorTerms(t)
  {
    var r := WithGroup(t, s, ExcludedTerms, newTerms);
    assert TermsAt(r, Brand, MainTerms) == TermsAt(t, Brand, MainTerms);
    assert TermsAt(r, Brand, Synonyms) == TermsAt(t, Brand, Synonyms);
    assert TermsAt(r, Competitors, MainTerms) == TermsAt(t, Competitors, MainTerms);
    assert TermsAt(r, Competitors, Synonyms) == TermsAt(t, Competitors, Synonyms);
  }

  /** What `handleRunPreview` does: refuse with a toast when read-only,
      otherwise hand the current (possibly unsaved) terms to the preview
      mutation. */
  datatype PreviewOutcome = PreviewRefused(toast: Toast) | PreviewRequested(terms: SearchTerms)

  function RunPreview(readOnly: bool, terms: SearchTerms): (r: PreviewOutcome)
    ensures readOnly <==> r == PreviewRefused(ErrorToast(NoPermissionMessage))
    ensures !readOnly <==> r == PreviewRequested(terms)
  {
    if readOnly then PreviewRefused(ErrorToast(NoPermissionMessage)) else PreviewRequested(terms)
  }

  /** The page's own state: the signed-in user and the terms being edited. */
  class SettingsPage {
    const user: Option<AppUser>
    var searchTerms: SearchTerms

    constructor (user: Option<AppUser>)
      ensures this.user == user && searchTerms == EmptySearchTerms
    {
      this.user := user;
      searchTerms := EmptySearchTerms;
    }

    predicate ReadOnly()
      reads this
    {
      IsReadOnly(user)
    }

    /** The effect that copies the fetched terms into the editable state
        once they arrive. */
    method TermsFetched(fetched: Option<SearchTerms>)
      modifies this
      ensures searchTerms == (if fetched.Some? then fetched.value else old(searchTerms))
    {
      if fetched.Some? {
        searchTerms := fetched.value;
      }
    }

    method HandleTermGroupChange(s: SectionKey, k: GroupKey, newTerms: seq<string>)
      modifies this
      ensures searchTerms == WithGroup(old(searchTerms), s, k, newTerms)
    {
      searchTerms := WithGroup(searchTerms, s, k, newTerms);
    }

    /** A term manager's add button (or Enter in its input), wired to one
        position of the settings. Read-only users get neither control, so
        nothing changes for them; otherwise the list at that position grows
        by the trimmed input (or stays), and no other list changes. */
    method AddTermAt(m: TermManager, s: SectionKey, k: GroupKey)
      modifies this, m
      ensures ReadOnly() ==> searchTerms == old(searchTerms) && m.inputValue == old(m.inputValue)
      ensures !ReadOnly() && AddedTerms(TermsAt(old(searchTerms), s, k), old(m.inputValue)).Some? ==>
                TermsAt(searchTerms, s, k) == AddedTerms(TermsAt(old(searchTerms), s, k), old(m.inputValue)).value
                && m.inputValue == ""
      ensures AddedTerms(TermsAt(old(searchTerms), s, k), old(m.inputValue)).None? ==>
                searchTerms == old(searchTerms) && m.inputValue == old(m.inputValue)
      ensures forall s', k' :: (s' != s || k' != k) ==> TermsAt(searchTerms, s', k') == TermsAt(old(searchTerms), s', k')
    {
      if ReadOnly() {
        return;
      }
      var change := m.HandleAddTerm(TermsAt(searchTerms, s, k));
      if change.Some? {
        HandleTermGroupChange(s, k, change.value);
      }
    }

    /** A term's remove button at one position: absent for read-only users;
        otherwise that list loses every occurrence of the term and the other
        five stay. */
    method RemoveTermAt(m: TermManager, s: SectionKey, k: GroupKey, term: string)
      modifies this
      ensures ReadOnly() ==> searchTerms == old(searchTerms)
      ensures !ReadOnly() ==> TermsAt(searchTerms, s, k) == RemoveAll(TermsAt(old(searchTerms), s, k), term)
      ensures forall s', k' :: (s' != s || k' != k) ==> TermsAt(searchTerms, s', k') == TermsAt(old(searchTerms), s', k')
    {
      if ReadOnly() {
        return;
      }
      var change := m.HandleRemoveTerm(TermsAt(searchTerms, s, k), term);
      HandleTermGroupChange(s, k, change);
    }

    /** `handleSubmit`: the save mutation receives the current terms. */
    method HandleSubmit() returns (request: SearchTerms)
      ensures request == searchTerms
    {
      request := searchTerms;
    }

    /** The preview button's handler, with this page's read-only flag. */
    method HandleRunPreview() returns (outcome: PreviewOutcome)
      ensures outcome == RunPreview(ReadOnly(), searchTerms)
    {
      outcome := RunPreview(ReadOnly(), searchTerms);
    }
  }
}
