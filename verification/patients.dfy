/** A patient's age on a given day and the display of their name. */
module Patients {
  import opened Text
  import opened Dates
  import opened Users

  /** `get_age` with "today" given: the difference of the years, less one when this
      year's birthday is still to come. It is the number of whole years lived: the
      birthday of that many years is on or before today, the next one after it. */
  function GetAge(birth: Date, today: Date): (age: int)
    ensures !Before(today, Date(birth.year + age, birth.month, birth.day))
    ensures Before(today, Date(birth.year + age + 1, birth.month, birth.day))
  {
    today.year - birth.year - (if MonthDayBefore(today, birth) then 1 else 0)
  }

  /** On the birthday itself the age is the difference of the years. */
  lemma AgeOnBirthday(birth: Date, year: int)
    ensures GetAge(birth, Date(year, birth.month, birth.day)) == year - birth.year
  {
  }

  /** Nobody born on or before today has a negative age. */
  lemma AgeNotNegative(birth: Date, today: Date)
    requires !Before(today, birth)
    ensures GetAge(birth, today) >= 0
  {
  }

  /** The age never goes down as the days go by. */
  lemma AgeGrows(birth: Date, d1: Date, d2: Date)
    requires !Before(d2, d1)
    ensures GetAge(birth, d1) <= GetAge(birth, d2)
  {
  }

  /** `get_full_name` of a patient is the same first-name-space-last-name display as a
      user's: when the first name holds no space, the first space ends it. */
  lemma FullNameSplits(firstName: string, lastName: string)
    requires ' ' !in firstName
    ensures ' ' in FullName(firstName, lastName)
    ensures IndexOf(FullName(firstName, lastName), ' ') == |firstName|
    ensures FullName(firstName, lastName)[..|firstName|] == firstName
    ensures FullName(firstName, lastName)[|firstName| + 1..] == lastName
  {
    var name := FullName(firstName, lastName);
    assert name[|firstName|] == ' ';
    assert forall j :: 0 <= j < |firstName| ==> name[j] == firstName[j];
    var i := IndexOf(name, ' ');
    assert i <= |firstName| by {
      assert forall j :: 0 <= j < i ==> name[..i][j] == name[j];
    }
  }
}
