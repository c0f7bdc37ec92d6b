/** The logic of src/components/VideoCard.tsx: `formatNumber`, and the
    favourite toggle with its `isFavorite` and `favoriteLoading` state. The
    add/remove calls are outside the model; whether they succeed is a
    parameter, and which one was made is returned. */
module VideoCard {
  import opened Strings
  import opened Types
  import NumberFormat

  const NotAvailable := "N/A"
  const LoginRoute := "/auth"

  /** `formatNumber`: `N/A` for a missing or zero count, otherwise the
      digits with a comma before every group of three. */
  function FormatNumber(num: Option<nat>): (text: string)
    ensures text == NotAvailable <==> num == None || num == Some(0)
    ensures num.Some? && num.value > 0 ==>
              && RemoveChar(text, ',') == Digits(num.value)
              && NumberFormat.WellGrouped(Split(text, ','))
              && (num.value < 1000 <==> ',' !in text)
  {
    match num
    case None => NotAvailable
    case Some(n) =>
      if n == 0 then NotAvailable
      else
        var text := NumberFormat.WithSeparators(n);
        RemoveCharAbsent(NotAvailable, ',');
        assert Digits(n)[0] != NotAvailable[0];
        text
  }

  /** The request a toggle makes. */
  datatype FavoriteCall = NoCall | AddFavorite(videoId: string) | RemoveFavorite(videoId: string)

  class Card {
    const video: VideoInfo
    var isFavorite: bool
    var favoriteLoading: bool

    constructor (video: VideoInfo, initialIsFavorite: bool)
      ensures this.video == video && isFavorite == initialIsFavorite && !favoriteLoading
    {
      this.video := video;
      isFavorite := initialIsFavorite;
      favoriteLoading := false;
    }

    /** `toggleFavorite`. A signed-out user is sent to the login route and
        nothing else happens; otherwise the call that matches the current
        state is made, and the state flips only if it succeeds. */
    method ToggleFavorite(isAuthenticated: bool, callSucceeds: bool) returns (call: FavoriteCall, redirect: Option<string>)
      modifies this
      ensures !isAuthenticated ==>
                && call == NoCall && redirect == Some(LoginRoute)
                && isFavorite == old(isFavorite) && favoriteLoading == old(favoriteLoading)
      ensures isAuthenticated ==> redirect == None && !favoriteLoading
      ensures isAuthenticated ==>
                call == (if old(isFavorite) then RemoveFavorite(video.id) else AddFavorite(video.id))
      ensures isAuthenticated && callSucceeds ==> isFavorite == !old(isFavorite)
      ensures !callSucceeds ==> isFavorite == old(isFavorite)
    {
      if !isAuthenticated {
        return NoCall, Some(LoginRoute);
      }
      redirect := None;
      favoriteLoading := true;
      if isFavorite {
        call := RemoveFavorite(video.id);
      } else {
        call := AddFavorite(video.id);
      }
      if callSucceeds {
        isFavorite := !isFavorite;
      }
      favoriteLoading := false;
    }
  }
}
