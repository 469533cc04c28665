/** The admin staff page: the comma-separated specialties field, the name filter, the salon
    restriction of the list query and the add-staff form's reset values. */
module AdminStaff {
  import opened Wrappers
  import opened Text
  import Seqs
  import opened Auth
  import opened AdminBookings

  // ---------------------------------------------------------------- specialties

  /** `map(s => s.trim())`. */
  function TrimAll(parts: seq<string>): (r: seq<string>)
    ensures |r| == |parts|
    ensures forall i :: 0 <= i < |parts| ==> r[i] == Trim(parts[i])
  {
    seq(|parts|, i requires 0 <= i < |parts| => Trim(parts[i]))
  }

  /** `filter(Boolean)` on strings keeps the non-empty ones. */
  predicate NonEmpty(s: string) {
    s != ""
  }

  /** The specialties the add-staff mutation stores: split on commas, trim each piece, drop the
      empty pieces. */
  function ParseSpecialties(s: string): (r: seq<string>)
    ensures |r| <= Seqs.Occurrences(s, ',') + 1
  {
    SplitCount(s, ',');
    Seqs.Filter(NonEmpty, TrimAll(Split(s, ',')))
  }

  /** Every character of a trimmed string comes from the string. */
  lemma TrimKeepsCharacters(s: string, c: char)
    requires c in Trim(s)
    ensures c in s
  {
    var t := TrimStart(s);
    TrimStartShape(s);
    TrimEndShape(t);
    var i :| 0 <= i < |Trim(s)| && Trim(s)[i] == c;
    assert t[i] == c;
    assert s[|s| - |t| + i] == c;
  }

  /** Every character of a piece of a split comes from the string. */
  lemma {:induction false} SplitKeepsCharacters(s: string, sep: char, i: nat, c: char)
    requires i < |Split(s, sep)| && c in Split(s, sep)[i]
    ensures c in s
    decreases |s|
  {
    if s != [] {
      var rest := Split(s[1..], sep);
      if s[0] == sep {
        if i > 0 {
          SplitKeepsCharacters(s[1..], sep, i - 1, c);
        }
      } else if i == 0 {
        if c != s[0] {
          assert c in rest[0];
          SplitKeepsCharacters(s[1..], sep, 0, c);
        }
      } else {
        SplitKeepsCharacters(s[1..], sep, i, c);
      }
    }
  }

  /** Every stored specialty is non-empty, has no whitespace at either end, and contains no comma. */
  lemma SpecialtiesAreClean(s: string, i: nat)
    requires i < |ParseSpecialties(s)|
    ensures var x := ParseSpecialties(s)[i];
            x != "" && !IsWhitespace(x[0]) && !IsWhitespace(x[|x| - 1]) && ',' !in x
  {
    var parts := Split(s, ',');
    var x := ParseSpecialties(s)[i];
    assert x in TrimAll(parts) && NonEmpty(x);
    var j :| 0 <= j < |parts| && TrimAll(parts)[j] == x;
    TrimShape(parts[j]);
    if ',' in x {
      TrimKeepsCharacters(parts[j], ',');
    }
  }

  /** A field of only commas and whitespace, the empty field in particular, stores no specialty. */
  lemma BlankStoresNothing(s: string)
    requires forall i :: 0 <= i < |s| ==> s[i] == ',' || IsWhitespace(s[i])
    ensures ParseSpecialties(s) == []
  {
    var parts := Split(s, ',');
    forall x | x in TrimAll(parts)
      ensures !NonEmpty(x)
    {
      var j :| 0 <= j < |parts| && TrimAll(parts)[j] == x;
      forall k | 0 <= k < |parts[j]|
        ensures IsWhitespace(parts[j][k])
      {
        SplitKeepsCharacters(s, ',', j, parts[j][k]);
      }
      TrimShape(parts[j]);
    }
    Seqs.FilterNone(NonEmpty, TrimAll(parts));
  }

  /** Splitting a joined list gives the list back, when no item holds the separator. */
  lemma {:induction false} SplitJoin(items: seq<string>, sep: char)
    requires |items| >= 1
    requires forall i :: 0 <= i < |items| ==> sep !in items[i]
    ensures Split(Join(items, sep), sep) == items
    decreases |items|
  {
    if |items| == 1 {
      SplitNoSeparator(items[0], sep);
    } else {
      SplitJoin(items[1..], sep);
      SplitAtSeparator(items[0], Join(items[1..], sep), sep);
      assert items == [items[0]] + items[1..];
    }
  }

  /** A specialty as the form expects it: non-empty, no comma, no whitespace at either end. */
  predicate Clean(x: string) {
    x != "" && ',' !in x && !IsWhitespace(x[0]) && !IsWhitespace(x[|x| - 1])
  }

  /** Clean pieces are left as they are by trimming and by dropping empty pieces. */
  lemma CleanPiecesKept(items: seq<string>)
    requires forall i :: 0 <= i < |items| ==> Clean(items[i])
    ensures Seqs.Filter(NonEmpty, TrimAll(items)) == items
  {
    forall i | 0 <= i < |items|
      ensures Trim(items[i]) == items[i]
    {
      TrimUntouched(items[i]);
    }
    assert TrimAll(items) == items;
    Seqs.FilterAll(NonEmpty, items);
  }

  /** Typing clean specialties separated by commas stores exactly those specialties. */
  lemma JoinedSpecialtiesRoundTrip(items: seq<string>)
    requires forall i :: 0 <= i < |items| ==> Clean(items[i])
    ensures ParseSpecialties(Join(items, ',')) == items
  {
    if items == [] {
      BlankStoresNothing(Join(items, ','));
    } else {
      SplitJoin(items, ',');
      CleanPiecesKept(items);
    }
  }

  // ---------------------------------------------------------------- the list

  /** A staff row, with the fields the page filters on. */
  datatype StaffRow = StaffRow(id: string, name: string, salonId: string)

  /** The staff list query, without its ordering by name. */
  function QueryStaff(table: seq<StaffRow>, f: Flags, managedSalonId: Option<string>): (r: seq<StaffRow>)
    ensures Seqs.IsSubsequence(r, table)
  {
    Seqs.Filter((m: StaffRow) => ScopedToSalon(f, managedSalonId) ==> m.salonId == managedSalonId.value, table)
  }

  /** When the query is restricted it returns exactly the managed salon's staff; otherwise it
      returns the whole table. */
  lemma QueryStaffScope(table: seq<StaffRow>, f: Flags, managedSalonId: Option<string>, m: StaffRow)
    ensures ScopedToSalon(f, managedSalonId) ==>
              (m in QueryStaff(table, f, managedSalonId) <==> m in table && m.salonId == managedSalonId.value)
    ensures !ScopedToSalon(f, managedSalonId) ==> QueryStaff(table, f, managedSalonId) == table
  {
    var p := (m: StaffRow) => ScopedToSalon(f, managedSalonId) ==> m.salonId == managedSalonId.value;
    Seqs.FilterMember(p, table, m);
    if !ScopedToSalon(f, managedSalonId) {
      Seqs.FilterAll(p, table);
    }
  }

  /** `filteredStaff`: a case-insensitive name search; an unloaded list stays unloaded. */
  function FilteredStaff(staff: Option<seq<StaffRow>>, search: string): (r: Option<seq<StaffRow>>)
    ensures r.Some? <==> staff.Some?
    ensures r.Some? ==> Seqs.IsSubsequence(r.value, staff.value)
  {
    if staff.None? then None
    else Some(Seqs.Filter((m: StaffRow) => MatchesSearch(m.name, search), staff.value))
  }

  /** A loaded member is listed exactly when the name contains the search, ignoring case; an empty
      search lists everyone in order. */
  lemma FilteredStaffIff(staff: seq<StaffRow>, search: string, m: StaffRow)
    ensures m in FilteredStaff(Some(staff), search).value <==> m in staff && Contains(Lower(m.name), Lower(search))
    ensures FilteredStaff(Some(staff), "") == Some(staff)
  {
    Seqs.FilterMember((m: StaffRow) => MatchesSearch(m.name, search), staff, m);
    forall x | x in staff
      ensures MatchesSearch(x.name, "")
    {
      EmptySearchMatches(x.name);
    }
    Seqs.FilterAll((m: StaffRow) => MatchesSearch(m.name, ""), staff);
  }

  // ---------------------------------------------------------------- the add form

  /** The add-staff form's fields; `specialties` is the raw comma-separated text. */
  datatype StaffForm = StaffForm(name: string, role: string, experience: string, specialties: string, salonId: string)

  /** The form's initial value, and its value after a member is added. */
  function NewStaffForm(managedSalonId: Option<string>): (form: StaffForm)
    ensures form.name == "" && form.experience == "" && form.specialties == ""
    ensures form.role == "Stylist"
    ensures IsSet(managedSalonId) ==> form.salonId == managedSalonId.value
    ensures !IsSet(managedSalonId) ==> form.salonId == ""
  {
    StaffForm("", "Stylist", "", "", managedSalonId.GetOr(""))
  }

  /** A salon manager's form is preset to the salon of the first role record that names one. */
  lemma FormPresetToManagedSalon(roles: seq<UserRole>, i: nat)
    requires i < |roles| && IsSet(roles[i].salonId)
    requires forall j :: 0 <= j < i ==> !IsSet(roles[j].salonId)
    ensures NewStaffForm(ManagedSalonId(roles)).salonId == roles[i].salonId.value
  {
    ManagedSalonIsFirst(roles);
  }
}
