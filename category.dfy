/**
 * internal/models/category.go without its SQL: the Category record and the
 * four checks of ValidateCategory.
 */
module Categories {
  import opened GoTime
  import opened GoStrings
  import opened Validator

  datatype Category = Category(
    id: int,
    name: string,
    categoryType: string,  // "income" or "expense"
    createdAt: Time,
    updatedAt: Time)

  const NameRequiredMessage := "Category name is required"
  const NameTooLongMessage := "Category name cannot exceed 100 characters"
  const TypeRequiredMessage := "Category type is required"
  const TypeEnumMessage := "Category type must be either 'income' or 'expense'"

  const CategoryFields: set<string> := {"name", "type"}

  predicate IsCategoryType(s: string) {
    s == "income" || s == "expense"
  }

  /** The errors after ValidateCategory's four checks, in source order. */
  function CategoryErrors(errors: map<string, string>, c: Category): (r: map<string, string>)
    ensures Extends(errors, r)
    ensures r.Keys <= errors.Keys + CategoryFields
  {
    var e1 := Checked(errors, NotBlank(c.name), "name", NameRequiredMessage);
    var e2 := Checked(e1, MaxLength(c.name, 100), "name", NameTooLongMessage);
    var e3 := Checked(e2, NotBlank(c.categoryType), "type", TypeRequiredMessage);
    Checked(e3, IsCategoryType(c.categoryType), "type", TypeEnumMessage)
  }

  method ValidateCategory(v: Validator, c: Category)
    modifies v
    ensures v.errors == CategoryErrors(old(v.errors), c)
  {
    v.Check(NotBlank(c.name), "name", NameRequiredMessage);
    v.Check(MaxLength(c.name, 100), "name", NameTooLongMessage);
    v.Check(NotBlank(c.categoryType), "type", TypeRequiredMessage);
    v.Check(IsCategoryType(c.categoryType), "type", TypeEnumMessage);
  }

  /**
   * On a fresh validator: a name that is empty or all white space is
   * "required"; a non-blank name of more than 100 characters is "too long"; a
   * type that is blank is "required" and any other type outside the two
   * accepted words gets the enumeration message.
   */
  lemma CategoryErrorsOnFresh(c: Category)
    ensures var r := CategoryErrors(map[], c);
      && r.Keys <= CategoryFields
      && ("name" in r <==> !NotBlank(c.name) || |c.name| > 100)
      && ("name" in r ==> r["name"] == if NotBlank(c.name) then NameTooLongMessage else NameRequiredMessage)
      && ("type" in r <==> !IsCategoryType(c.categoryType))
      && ("type" in r ==>
            r["type"] == if NotBlank(c.categoryType) then TypeEnumMessage else TypeRequiredMessage)
  {
  }

  /** A fresh validator stays valid exactly for a non-blank name of at most 100 characters and an accepted type. */
  lemma CategoryValidIff(c: Category)
    ensures CategoryErrors(map[], c) == map[] <==>
      NotBlank(c.name) && |c.name| <= 100 && IsCategoryType(c.categoryType)
  {
  }

  /** Padding an accepted type with white space makes it invalid: the type is compared untrimmed. */
  lemma PaddedTypeRefused(c: Category)
    requires c.categoryType == " income"
    ensures CategoryErrors(map[], c)["type"] == TypeEnumMessage
  {
    assert NotBlank(c.categoryType) by { assert !IsSpace(c.categoryType[1]); }
    NameChecksLeaveType(NotBlank(c.name), MaxLength(c.name, 100));
  }

  /** The two name checks never record anything under "type". */
  lemma NameChecksLeaveType(blankOk: bool, lengthOk: bool)
    ensures "type" !in Checked(Checked(map[], blankOk, "name", NameRequiredMessage), lengthOk, "name", NameTooLongMessage)
  {
  }
}
