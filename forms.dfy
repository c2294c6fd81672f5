/** What the entry screens share: the user id stamped on every new row and the
    "trimmed, or left out when blank" rule for optional text fields. */
module Forms {
  import opened Wrappers
  import opened Text

  /** The id the screens fall back to when no user is signed in
      (app/pet/new.tsx:53, app/todo/new.tsx:70). */
  const FallbackUserId: string := "df0f1edf-3c2d-4cf2-a476-89fc5e1c5e21"

  /** `user?.id || FallbackUserId`: the signed-in user's id unless there is no user or
      the id is the empty string, which JavaScript treats as false. */
  function CurrentUserId(user: Option<string>): (r: string)
    ensures r != []
    ensures user.Some? && user.value != [] ==> r == user.value
    ensures user.None? || user.value == [] ==> r == FallbackUserId
  {
    if user.Some? && user.value != [] then user.value else FallbackUserId
  }

  /** `s.trim() || undefined`: absent exactly when `s` is blank, and otherwise the
      trimmed text, which then neither starts nor ends with white space. */
  function TrimmedOrAbsent(s: string): (r: Option<string>)
    ensures r.None? <==> IsBlank(s)
    ensures r.Some? ==> r.value == Trim(s) && r.value != []
    ensures r.Some? ==> !IsTrimmable(r.value[0]) && !IsTrimmable(r.value[|r.value| - 1])
  {
    var t := Trim(s);
    if t == [] then None else Some(t)
  }

  /** Feeding the kept text back in keeps it: the rule is idempotent. */
  lemma TrimmedOrAbsentIdempotent(s: string)
    ensures TrimmedOrAbsent(TrimmedOrAbsent(s).GetOr("")) == TrimmedOrAbsent(s)
  {
    TrimIdempotent(s);
  }
}
