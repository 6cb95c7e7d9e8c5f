/**
 * The nested output document and `transform_to_json`, a total pure mapping
 * from one joined profile row to one document.
 */
module Documents {
  import opened Wrappers
  import opened Timestamps
  import opened SourceStore

  datatype Identification = Identification(
    customerId: int, email: Option<string>, loyaltyId: Option<int>, phoneNumber: Option<string>)

  datatype Core = Core(
    age: Option<int>, favouriteCategory: Option<string>, favouriteSubCategory: Option<string>)

  datatype Retail = Retail(
    favoriteColor: Option<string>, pantsSize: Option<string>, shirtSize: Option<string>, shoeSize: Option<int>)

  datatype IndividualCharacteristics = IndividualCharacteristics(core: Core, retail: Retail)

  datatype UserAccount = UserAccount(ID: int)

  datatype Loyalty = Loyalty(loyaltyID: Option<int>, joinDate: Option<string>, points: Option<int>)

  datatype Collect = Collect(val: string)

  datatype Marketing = Marketing(preferred: Option<string>)

  datatype Consents = Consents(collect: Collect, marketing: Marketing)

  datatype HomeAddress = HomeAddress(
    city: Option<string>, country: Option<string>, countryCode: Option<string>,
    street1: Option<string>, postalCode: Option<string>)

  datatype MobilePhone = MobilePhone(number: Option<string>)

  datatype Name = Name(lastName: Option<string>, fullName: string, firstName: Option<string>)

  datatype Person = Person(
    birthDayAndMonth: Option<string>, birthYear: Option<int>, name: Name, gender: Option<string>)

  datatype PersonalEmail = PersonalEmail(address: Option<string>)

  datatype Document = Document(
    createDate: Option<string>,
    identification: Identification,
    individualCharacteristics: IndividualCharacteristics,
    userAccount: UserAccount,
    loyalty: Loyalty,
    consents: Consents,
    homeAddress: HomeAddress,
    mobilePhone: MobilePhone,
    person: Person,
    personalEmail: PersonalEmail,
    testProfile: bool)

  /** How an f-string renders an optional text: the text itself, or `None`. */
  function Render(s: Option<string>): string {
    match s
    case Some(v) => v
    case None => "None"
  }

  /** Python's truth test on a nullable boolean: only a present `True` is truthy. */
  function ConsentFlag(consent: Option<bool>): string {
    if consent == Some(true) then "y" else "n"
  }

  function IsoFormatOpt(t: Option<DateTime>): Option<string> {
    match t
    case Some(v) => Some(IsoFormat(v))
    case None => None
  }

  function IsoFormatDateOpt(d: Option<CalendarDate>): Option<string> {
    match d
    case Some(v) => Some(IsoFormatDate(v))
    case None => None
  }

  /**
   * `transform_to_json(profile, customer_id)`; `currentYear` stands for
   * `datetime.now().year`.
   */
  function Transform(p: ProfileRecord, customerId: int, currentYear: int): Document {
    var c := p.customer;
    var dob := c.dateOfBirth;
    Document(
      createDate := IsoFormatOpt(p.profileCreationDate),
      identification := Identification(customerId, c.email, p.loyalty.loyaltyNumberId, c.mobilePhone),
      individualCharacteristics := IndividualCharacteristics(
        Core(if dob.Some? then Some(currentYear - dob.value.year) else None,
             p.retail.favouriteCategory, p.retail.favouriteSubcategory),
        Retail(p.retail.favouriteColor, p.retail.pantsSize, p.retail.shirtSize, p.retail.shoeSize)),
      userAccount := UserAccount(customerId),
      loyalty := Loyalty(p.loyalty.loyaltyNumberId, IsoFormatDateOpt(p.loyalty.dateJoined), p.loyalty.points),
      consents := Consents(Collect(ConsentFlag(p.marketing.consent)), Marketing(p.marketing.preferredCommunication)),
      homeAddress := HomeAddress(c.homeCity, c.country, c.isoCountryCode, c.homeAddress, c.postalCode),
      mobilePhone := MobilePhone(c.mobilePhone),
      person := Person(
        if dob.Some? then Some(MonthDay(dob.value)) else None,
        if dob.Some? then Some(dob.value.year) else None,
        Name(c.lastName, Render(c.name) + " " + Render(c.lastName), c.name),
        c.gender),
      personalEmail := PersonalEmail(c.email),
      testProfile := true)
  }

  /** The consent flag is `y` exactly when consent is a present `true`; `false` and NULL give `n`. */
  lemma ConsentMapping(p: ProfileRecord, customerId: int, currentYear: int)
    ensures var v := Transform(p, customerId, currentYear).consents.collect.val;
      && (v == "y" <==> p.marketing.consent == Some(true))
      && (v == "n" <==> p.marketing.consent != Some(true))
  {
  }

  /**
   * Birth fields: all three absent without a date of birth; otherwise the
   * year difference, the birth year, and a `MM-DD` text that reads back as
   * the birth month and day.
   */
  lemma BirthFields(p: ProfileRecord, customerId: int, currentYear: int)
    ensures var d := Transform(p, customerId, currentYear);
      && (d.individualCharacteristics.core.age.None? <==> p.customer.dateOfBirth.None?)
      && (d.person.birthYear.None? <==> p.customer.dateOfBirth.None?)
      && (d.person.birthDayAndMonth.None? <==> p.customer.dateOfBirth.None?)
    ensures var d := Transform(p, customerId, currentYear);
      p.customer.dateOfBirth.Some? ==>
        var dob := p.customer.dateOfBirth.value;
        && d.individualCharacteristics.core.age == Some(currentYear - dob.year)
        && d.person.birthYear == Some(dob.year)
        && currentYear - d.person.birthYear.value == d.individualCharacteristics.core.age.value
        && var md := d.person.birthDayAndMonth.value;
           && |md| == 5 && md[2] == '-'
           && AllDigits(md[..2]) && DecimalValue(md[..2]) == dob.month
           && AllDigits(md[3..]) && DecimalValue(md[3..]) == dob.day
  {
    if p.customer.dateOfBirth.Some? {
      MonthDayRoundTrip(p.customer.dateOfBirth.value);
    }
  }

  /**
   * Removing the date of birth clears exactly `age`, `birthDayAndMonth` and
   * `birthYear` and leaves every other field of the document as it was.
   */
  lemma NullDateOfBirthPropagation(p: ProfileRecord, customerId: int, currentYear: int)
    ensures var d := Transform(p, customerId, currentYear);
      var q := p.(customer := p.customer.(dateOfBirth := None));
      Transform(q, customerId, currentYear) ==
        d.(individualCharacteristics := d.individualCharacteristics.(core := d.individualCharacteristics.core.(age := None)),
           person := d.person.(birthDayAndMonth := None, birthYear := None))
  {
  }

  /**
   * `fullName` is the first name, one space, the last name, with a missing
   * part rendered as `None`; when both are present it has exactly their
   * combined length plus one.
   */
  lemma FullName(p: ProfileRecord, customerId: int, currentYear: int)
    ensures var n := Transform(p, customerId, currentYear).person.name;
      && n.fullName == Render(p.customer.name) + " " + Render(p.customer.lastName)
      && n.firstName == p.customer.name && n.lastName == p.customer.lastName
    ensures p.customer.name.Some? && p.customer.lastName.Some? ==>
      var f := Transform(p, customerId, currentYear).person.name.fullName;
      && |f| == |p.customer.name.value| + 1 + |p.customer.lastName.value|
      && f[..|p.customer.name.value|] == p.customer.name.value
      && f[|p.customer.name.value|] == ' '
      && f[|p.customer.name.value| + 1..] == p.customer.lastName.value
  {
  }

  /**
   * Fields the document repeats: the customer id, the e-mail, the loyalty
   * number and the mobile phone each appear in two places; `testProfile`
   * is always true.
   */
  lemma DuplicatedFields(p: ProfileRecord, customerId: int, currentYear: int)
    ensures var d := Transform(p, customerId, currentYear);
      && d.identification.customerId == customerId && d.userAccount.ID == customerId
      && d.identification.email == p.customer.email && d.personalEmail.address == p.customer.email
      && d.identification.loyaltyId == p.loyalty.loyaltyNumberId && d.loyalty.loyaltyID == p.loyalty.loyaltyNumberId
      && d.identification.phoneNumber == p.customer.mobilePhone && d.mobilePhone.number == p.customer.mobilePhone
      && d.testProfile
  {
  }

  /** The ISO timestamps are present exactly when their source columns are, and read back to the date. */
  lemma IsoDates(p: ProfileRecord, customerId: int, currentYear: int)
    ensures var d := Transform(p, customerId, currentYear);
      && (d.createDate.Some? <==> p.profileCreationDate.Some?)
      && (p.profileCreationDate.Some? ==>
            ParseIsoDate(d.createDate.value[..10]) == Some(p.profileCreationDate.value.date))
      && (d.loyalty.joinDate.Some? <==> p.loyalty.dateJoined.Some?)
      && (p.loyalty.dateJoined.Some? ==> ParseIsoDate(d.loyalty.joinDate.value) == Some(p.loyalty.dateJoined.value))
  {
    if p.profileCreationDate.Some? {
      IsoFormatShape(p.profileCreationDate.value);
    }
    if p.loyalty.dateJoined.Some? {
      IsoFormatDateRoundTrip(p.loyalty.dateJoined.value);
    }
  }

  /** Transforms each fetched row with its own customer id, keeping order and count. */
  function TransformAll(ps: seq<ProfileRecord>, currentYear: int): (ds: seq<Document>)
    ensures |ds| == |ps|
    ensures forall i :: 0 <= i < |ps| ==> ds[i] == Transform(ps[i], ps[i].customer.customerId, currentYear)
  {
    if ps == [] then []
    else TransformAll(ps[..|ps| - 1], currentYear) + [Transform(ps[|ps| - 1], ps[|ps| - 1].customer.customerId, currentYear)]
  }
}
