/** The logic of src/components/CreatorCard.tsx: its own copy of
    `formatNumber`, and the fallback picture. */
module CreatorCard {
  import opened Strings
  import opened Types
  import NumberFormat
  import VideoCard

  const NotAvailable := "N/A"
  const DefaultProfilePicture := "https://via.placeholder.com/100?text=Creator"

  /** `formatNumber` as this component writes it. */
  function FormatNumber(num: Option<nat>): (text: string)
    ensures text == NotAvailable <==> num == None || num == Some(0)
    ensures num.Some? && num.value > 0 ==>
              && RemoveChar(text, ',') == Digits(num.value)
              && NumberFormat.WellGrouped(Split(text, ','))
              && (num.value < 1000 ==> text == Digits(num.value))
  {
    if num == None || num.value == 0 then NotAvailable
    else
      var text := NumberFormat.WithSeparators(num.value);
      RemoveCharAbsent(NotAvailable, ',');
      assert Digits(num.value)[0] != NotAvailable[0];
      text
  }

  /** The two components format every count the same way. */
  lemma SameAsVideoCard(num: Option<nat>)
    ensures FormatNumber(num) == VideoCard.FormatNumber(num)
  {
  }

  /** The picture shown: the creator's own when it is a non-empty string,
      the placeholder otherwise. */
  function ProfileImage(creator: Creator): (src: string)
    ensures creator.profilePicture.Some? && creator.profilePicture.value != "" ==> src == creator.profilePicture.value
    ensures creator.profilePicture == None || creator.profilePicture == Some("") ==> src == DefaultProfilePicture
  {
    OptionOrDefault(creator.profilePicture, DefaultProfilePicture)
  }
}
