/** The administrator check by e-mail address (src/lib/isAdmin.ts): the
    address must be one of the entries of a comma-separated allow-list held
    in the environment. The environment value is a parameter. */
module IsAdmin {
  import opened Types
  import Strings

  /** The allow-list: the environment value split on commas, or no entries
      when the variable is unset. */
  function AdminEmails(env: Option<string>): (list: seq<string>)
    ensures env.None? ==> list == []
    ensures forall i :: 0 <= i < |list| ==> ',' !in list[i]
  {
    if env.Some? then Strings.Split(env.value, ',') else []
  }

  /** `isAdminEmail(email)` with `NEXT_PUBLIC_ADMIN_EMAILS` given as `env`. */
  function IsAdminEmail(email: Option<string>, env: Option<string>): (r: bool)
    ensures !Truthy(email) ==> !r
    ensures env.None? ==> !r
    ensures email.Some? && ',' in email.value ==> !r
  {
    Truthy(email) && email.value in AdminEmails(env)
  }

  /** A list of one entry admits exactly that address, compared exactly. */
  lemma SingleEntry(email: string, entry: string)
    requires ',' !in entry
    ensures IsAdminEmail(Some(email), Some(entry)) <==> email != "" && email == entry
  {
    Strings.SplitNoSeparator(entry, ',');
  }

  /** A list whose first entry is `first` admits that address and whatever
      the rest of the list admits, and nothing else. */
  lemma FirstEntry(email: string, first: string, rest: string)
    requires ',' !in first
    ensures IsAdminEmail(Some(email), Some(first + [','] + rest))
        <==> email != "" && (email == first || IsAdminEmail(Some(email), Some(rest)))
  {
    Strings.SplitField(first, ',', rest);
  }

  /** Entries are not trimmed: a space before the address is part of the
      entry, so the address does not match it. */
  lemma NoTrimming(email: string)
    requires ',' !in email
    ensures !IsAdminEmail(Some(email), Some(" " + email))
  {
    assert ',' !in " " + email;
    SingleEntry(email, " " + email);
  }

  /** Every listed entry that is not empty is admitted. */
  lemma ListedEntriesAdmitted(env: string, i: nat)
    requires i < |Strings.Split(env, ',')| && Strings.Split(env, ',')[i] != ""
    ensures IsAdminEmail(Some(Strings.Split(env, ',')[i]), Some(env))
  {
  }
}
