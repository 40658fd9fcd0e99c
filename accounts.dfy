/**
 * The account records: the user (identified by email), the employee
 * profile, the name helpers of the user, and the user manager's
 * `create_user` / `create_superuser`, including Django's
 * `normalize_email` that `create_user` applies before lower-casing.
 * Password hashing and saving are left out.
 */
module Accounts {
  import opened Wrappers
  import opened Text
  import opened Calendar
  import opened Cells

  /** `get_full_name`: first and last name joined by a space and stripped, or the email when that is empty. */
  function FullName(first: string, last: string, email: string): string {
    var full := Strip(first + " " + last);
    if full != "" then full else email
  }

  /** The joined names are blank exactly when both names are blank. */
  lemma JoinedBlank(first: string, last: string)
    ensures AllSpace(first + " " + last) <==> AllSpace(first) && AllSpace(last)
  {
    var s := first + " " + last;
    if AllSpace(s) {
      forall i | 0 <= i < |first| ensures IsSpace(first[i]) {
        assert s[i] == first[i];
      }
      forall i | 0 <= i < |last| ensures IsSpace(last[i]) {
        assert s[|first| + 1 + i] == last[i];
      }
    }
  }

  /**
   * The full name falls back to the email exactly when both names are
   * blank; otherwise it is a non-empty name without surrounding
   * whitespace.
   */
  lemma FullNameMeaning(first: string, last: string, email: string)
    ensures AllSpace(first) && AllSpace(last) ==> FullName(first, last, email) == email
    ensures !(AllSpace(first) && AllSpace(last)) ==>
      var r := FullName(first, last, email);
      r == Strip(first + " " + last) && r != [] && !IsSpace(r[0]) && !IsSpace(r[|r| - 1])
  {
    JoinedBlank(first, last);
    StripShape(first + " " + last);
  }

  /** `get_short_name`: the first name, or the part of the email before its first "@". */
  function ShortName(first: string, email: string): (r: string)
    ensures first != "" ==> r == first
    ensures first == "" ==> StartsWith(email, r) && '@' !in r && (|r| < |email| ==> email[|r|] == '@')
  {
    if first != "" then first else BeforeFirst(email, '@')
  }

  /** `is_active_employee`: no termination date, or one strictly after today. */
  predicate IsActiveEmployee(termination: Option<ValidDate>, today: ValidDate) {
    termination.None? || Ordinal(termination.value) > Ordinal(today)
  }

  /** An employee stops being active on the termination date and stays inactive from then on. */
  lemma InactiveFromTermination(t: ValidDate, today: ValidDate)
    ensures IsActiveEmployee(Some(t), today) <==> Ordinal(today) < Ordinal(t)
    ensures !IsActiveEmployee(Some(t), t)
  {
  }

  /**
   * `BaseUserManager.normalize_email`: when the stripped address has an
   * "@", the domain after the last "@" is lower-cased and the stripped
   * address returned; without an "@" the address comes back unchanged,
   * not even stripped.
   */
  function NormalizeEmail(email: string): (r: string)
    ensures '@' !in Strip(email) ==> r == email
    ensures var s := Strip(email);
      '@' in s ==> exists k :: 0 <= k < |s| && s[k] == '@' && '@' !in s[k + 1..]
                              && |r| == |s| && r[..k + 1] == s[..k + 1] && r[k + 1..] == Lower(s[k + 1..])
  {
    var s := Strip(email);
    if '@' in s then
      var before, after := BeforeLast(s, '@'), AfterLast(s, '@');
      var k := |before|;
      assert s[k + 1..] == after && s[..k + 1] == before + "@";
      var r := before + "@" + Lower(after);
      assert r[..k + 1] == before + "@" && r[k + 1..] == Lower(after);
      r
    else email
  }

  /** Lower-casing the normalized address is lower-casing the stripped address, or the raw one without "@". */
  lemma NormalizeThenLower(email: string)
    ensures Lower(NormalizeEmail(email)) == if '@' in Strip(email) then Lower(Strip(email)) else Lower(email)
  {
    var s := Strip(email);
    if '@' in s {
      var before, after := BeforeLast(s, '@'), AfterLast(s, '@');
      LowerConcat(before + "@", Lower(after));
      LowerConcat(before, "@");
      LowerIdempotent(after);
      LowerConcat(before + "@", after);
    }
  }

  /** Why the manager refuses to create a user. */
  datatype AccountError = EmailRequired | StaffRequired | SuperuserRequired

  /** The `extra_fields` flags a caller passes; `None` when the key is absent. */
  datatype Flags = Flags(isStaff: Option<bool>, isSuperuser: Option<bool>, isActive: Option<bool>)

  /** The row `create_user` saves (the password is left out). */
  datatype NewUser = NewUser(email: string, isStaff: bool, isSuperuser: bool, isActive: bool)

  /**
   * `create_user`: an empty email raises; otherwise the email is
   * normalized and lower-cased, and flags not given take the model
   * defaults (not staff, not superuser, active).
   */
  function CreateUser(email: string, extra: Flags): (r: Result<NewUser, AccountError>)
    ensures r.Err? <==> email == ""
    ensures r.Err? ==> r.error == EmailRequired
    ensures r.Ok? ==> r.value.email == (if '@' in Strip(email) then Lower(Strip(email)) else Lower(email))
    ensures r.Ok? ==> Lower(r.value.email) == r.value.email
    ensures r.Ok? ==>
      r.value.isStaff == extra.isStaff.GetOr(false) && r.value.isSuperuser == extra.isSuperuser.GetOr(false)
      && r.value.isActive == extra.isActive.GetOr(true)
  {
    if email == "" then Err(EmailRequired)
    else
      NormalizeThenLower(email);
      LowerIdempotent(NormalizeEmail(email));
      Ok(NewUser(Lower(NormalizeEmail(email)), extra.isStaff.GetOr(false),
                 extra.isSuperuser.GetOr(false), extra.isActive.GetOr(true)))
  }

  /** Two addresses that differ only in letter case give the same stored email. */
  lemma StoredEmailIgnoresCase(a: string, b: string, extra: Flags)
    requires a != "" && '@' in Strip(a) && '@' in Strip(b) && Lower(Strip(a)) == Lower(Strip(b))
    ensures CreateUser(a, extra) == CreateUser(b, extra)
  {
    assert b != "";
  }

  /** The flag was passed, and passed as false. */
  predicate GivenFalse(flag: Option<bool>) {
    flag.Some? && !flag.value
  }

  /**
   * `create_superuser`: `is_staff`, `is_superuser` and `is_active` default
   * to true; an explicit false staff or superuser flag raises, checked in
   * that order and before the email.
   */
  function CreateSuperuser(email: string, extra: Flags): (r: Result<NewUser, AccountError>)
    ensures r == Err(StaffRequired) <==> GivenFalse(extra.isStaff)
    ensures r == Err(SuperuserRequired) <==> !GivenFalse(extra.isStaff) && GivenFalse(extra.isSuperuser)
    ensures r == Err(EmailRequired) <==> !GivenFalse(extra.isStaff) && !GivenFalse(extra.isSuperuser) && email == ""
    ensures r.Ok? ==> r.value.isStaff && r.value.isSuperuser && r.value.isActive == extra.isActive.GetOr(true)
  {
    var flags := Flags(Some(extra.isStaff.GetOr(true)), Some(extra.isSuperuser.GetOr(true)),
                       Some(extra.isActive.GetOr(true)));
    if flags.isStaff != Some(true) then Err(StaffRequired)
    else if flags.isSuperuser != Some(true) then Err(SuperuserRequired)
    else CreateUser(email, flags)
  }

  /** A superuser and a plain user created from the same address store the same email. */
  lemma SuperuserEmailAsUser(email: string, extra: Flags)
    requires CreateSuperuser(email, extra).Ok?
    ensures CreateSuperuser(email, extra).value.email == CreateUser(email, extra).value.email
  {
  }

  /** `User`: the fields the login adapter and the roster seeder update. */
  class User {
    var email: string
    var firstName: string
    var lastName: string
    var isActive: bool
    var groups: set<string>

    /** A user with the given email and names, active, in no group. */
    constructor (email: string, firstName: string, lastName: string)
      ensures this.email == email && this.firstName == firstName && this.lastName == lastName
      ensures isActive && groups == {}
    {
      this.email, this.firstName, this.lastName := email, firstName, lastName;
      isActive := true;
      groups := {};
    }
  }

  /**
   * `EmployeeProfile`: the fields the seeder and the login adapter update,
   * and the termination date `is_active_employee` reads.  `initials` and
   * `active` are the fields the roster seeder writes.
   */
  class EmployeeProfile {
    var title: string
    var initials: string
    var active: bool
    var terminationDate: Option<ValidDate>

    /** A fresh profile: blank title and initials, active, not terminated. */
    constructor ()
      ensures title == "" && initials == "" && active && terminationDate.None?
    {
      title, initials, active, terminationDate := "", "", true, None;
    }

    /** `is_active_employee` on this profile. */
    predicate ActiveOn(today: ValidDate)
      reads this
    {
      IsActiveEmployee(terminationDate, today)
    }
  }
}
