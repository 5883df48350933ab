/** Values shared by several pages of the dashboard: optional values, the
    signed-in user, toast notifications, and the "remove every occurrence"
    filter the term editors use. */
module Common {

  datatype Option<T> = None | Some(value: T)

  /** The two roles a dashboard account can carry. */
  datatype Role = ADM | OPERADOR

  function RoleName(r: Role): string
  {
    match r
    case ADM => "ADM"
    case OPERADOR => "OPERADOR"
  }

  /** The profile the authentication context exposes; `role` is null when the
      account has no role claim. */
  datatype AppUser = AppUser(uid: string, email: string, role: Option<Role>)

  /** True when a user is signed in and that user's role is `ADM`
      (`user?.role === 'ADM'`). */
  predicate IsAdmin(user: Option<AppUser>)
  {
    user.Some? && user.value.role == Some(ADM)
  }

  /** A toast notification shown to the user. */
  datatype Toast = SuccessToast(text: string) | ErrorToast(text: string)

  /** JavaScript's `x || fallback` for an optional string: an absent or empty
      string falls back. */
  function OrElse(x: Option<string>, fallback: string): (r: string)
    ensures x.Some? && x.value != "" ==> r == x.value
    ensures x.None? || x.value == "" ==> r == fallback
  {
    if x.Some? && x.value != "" then x.value else fallback
  }

  /** `s.filter(y => y !== x)`: every occurrence of `x` removed. */
  function RemoveAll<T(==)>(s: seq<T>, x: T): (r: seq<T>)
    ensures multiset(r) == multiset(s)[x := 0]
    ensures |r| <= |s|
  {
    if s == [] then []
    else
      assert s == [s[0]] + s[1..];
      (if s[0] == x then [] else [s[0]]) + RemoveAll(s[1..], x)
  }

  /** Membership after removal: `x` is gone, everything else stays. */
  lemma RemoveAllMembers<T>(s: seq<T>, x: T, y: T)
    ensures y in RemoveAll(s, x) <==> y in s && y != x
  {
    assert y in RemoveAll(s, x) <==> y in multiset(RemoveAll(s, x));
    assert y in s <==> y in multiset(s);
  }

  /** Removal keeps the relative order of what is left: it distributes over
      concatenation, so the survivors of a prefix stay before the survivors of
      the rest. */
  lemma {:induction false} RemoveAllAppend<T>(a: seq<T>, b: seq<T>, x: T)
    ensures RemoveAll(a + b, x) == RemoveAll(a, x) + RemoveAll(b, x)
  {
    if a == [] {
      assert a + b == b;
    } else {
      assert (a + b)[1..] == a[1..] + b;
      RemoveAllAppend(a[1..], b, x);
    }
  }

  /** Removing a value that does not occur changes nothing. */
  lemma {:induction false} RemoveAllAbsent<T>(s: seq<T>, x: T)
    requires x !in s
    ensures RemoveAll(s, x) == s
  {
    if s != [] {
      RemoveAllAbsent(s[1..], x);
    }
  }

  predicate NoDuplicates<T(==)>(s: seq<T>)
  {
    forall i, j :: 0 <= i < j < |s| ==> s[i] != s[j]
  }

  /** A filtered duplicate-free list stays duplicate-free. */
  lemma {:induction false} RemoveAllKeepsNoDuplicates<T>(s: seq<T>, x: T)
    requires NoDuplicates(s)
    ensures NoDuplicates(RemoveAll(s, x))
  {
    if s != [] {
      RemoveAllKeepsNoDuplicates(s[1..], x);
      RemoveAllMembers(s[1..], x, s[0]);
    }
  }
}
