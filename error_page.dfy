/** The status, title and message src/pages/ErrorPage.tsx shows for the
    error the router caught. */
module ErrorPage {
  const DefaultStatus := 500
  const ServerErrorTitle := "Server Error"
  const ServerErrorMessage := "Something went wrong on our server. Please try again later."
  const NotFoundStatus := 404
  const NotFoundTitle := "Page Not Found"
  const NotFoundMessage := "The page you are looking for does not exist or has been moved."

  /** What `useRouteError()` gives: a route error response with its status,
      or anything else that was thrown. */
  datatype RouteError = RouteErrorResponse(status: int) | OtherError

  datatype ErrorView = ErrorView(status: int, title: string, message: string)

  /** Route error responses keep their status; only 404 changes the text. */
  function ViewOf(error: RouteError): (view: ErrorView)
    ensures error.OtherError? ==> view == ErrorView(DefaultStatus, ServerErrorTitle, ServerErrorMessage)
    ensures error.RouteErrorResponse? ==> view.status == error.status
    ensures view.title == NotFoundTitle <==> view.status == NotFoundStatus
    ensures view.status == NotFoundStatus ==> view.message == NotFoundMessage
    ensures view.status != NotFoundStatus ==> view.title == ServerErrorTitle && view.message == ServerErrorMessage
  {
    var status := if error.RouteErrorResponse? then error.status else DefaultStatus;
    if status == NotFoundStatus then ErrorView(status, NotFoundTitle, NotFoundMessage)
    else ErrorView(status, ServerErrorTitle, ServerErrorMessage)
  }

  /** The page depends on the error only through the status it shows. */
  lemma ViewDeterminedByStatus(a: RouteError, b: RouteError)
    requires ViewOf(a).status == ViewOf(b).status
    ensures ViewOf(a) == ViewOf(b)
  {
  }
}
