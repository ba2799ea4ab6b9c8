/**
 * The expiry badge and icon of src/components/DocumentVault.tsx. The day
 * count (date-fns `differenceInDays` of the expiry date and now) is a
 * parameter.
 */
module DocumentVault {
  import opened Styles
  import opened Text

  datatype DocType = RC | Insurance | Permit | License | Fitness

  datatype Icon = FileTextIcon | ShieldIcon | CreditCardIcon | CheckCircleIcon | AlertTriangleIcon | ReceiptIcon

  /** `typeIcons` */
  const TypeIcons: map<DocType, Icon> := map[
    RC := FileTextIcon,
    Insurance := ShieldIcon,
    Permit := CreditCardIcon,
    License := CreditCardIcon,
    Fitness := CheckCircleIcon
  ]

  /** Every document type has an entry in `typeIcons`. */
  lemma TypeIconsTotal(t: DocType)
    ensures t in TypeIcons
  {
    match t
    case RC =>
    case Insurance =>
    case Permit =>
    case License =>
    case Fitness =>
  }

  /** `getExpiryTag`: Expired, then two `d left` bands split at 7 and 30 days, then Valid. */
  function ExpiryTag(days: int): (t: Tag)
    ensures t.tone == Danger <==> days < 0
    ensures t.tone == Warning <==> 0 <= days <= 7
    ensures t.tone == DriverAccent <==> 8 <= days <= 30
    ensures t.tone == Success <==> 30 < days
    ensures days < 0 ==> t.text == "Expired"
    ensures 0 <= days <= 30 ==> t.text == DaysLeftLabel(days)
    ensures 30 < days ==> t.text == "Valid"
  {
    if days < 0 then Tag("Expired", Danger)
    else if days <= 7 then Tag(DaysLeftLabel(days), Warning)
    else if days <= 30 then Tag(DaysLeftLabel(days), DriverAccent)
    else Tag("Valid", Success)
  }

  /** A later expiry never gets a more urgent badge. */
  lemma ExpiryTagMonotone(d1: int, d2: int)
    requires d1 <= d2
    ensures Severity(ExpiryTag(d2).tone) <= Severity(ExpiryTag(d1).tone)
  {
  }

  /** The badge text alone tells which badge it is: equal texts mean equal badges. */
  lemma ExpiryTagTextDetermines(d1: int, d2: int)
    requires ExpiryTag(d1).text == ExpiryTag(d2).text
    ensures ExpiryTag(d1) == ExpiryTag(d2)
  {
    if 0 <= d1 <= 30 && 0 <= d2 <= 30 {
      DaysLeftLabelInjective(d1, d2);
    } else if 0 <= d1 <= 30 {
      DaysLeftLabelIsNotWord(d1, ExpiryTag(d2).text);
    } else if 0 <= d2 <= 30 {
      DaysLeftLabelIsNotWord(d2, ExpiryTag(d1).text);
    }
  }

  /** The row icon: the alert icon exactly for an expired document, otherwise the type's icon. */
  function DocumentIcon(docType: DocType, days: int): (i: Icon)
    ensures i == AlertTriangleIcon <==> days < 0
    ensures 0 <= days ==> docType in TypeIcons && i == TypeIcons[docType]
  {
    TypeIconsTotal(docType);
    if days < 0 then AlertTriangleIcon
    else if docType in TypeIcons then TypeIcons[docType]
    else FileTextIcon
  }
}
