/** The responses the handlers write: a status code and the JSON body passed
    to echo's c.JSON. Serialisation itself is not modelled. */
module Http {
  import opened Common
  import SummaryRepository

  const StatusOK := 200
  const StatusCreated := 201
  const StatusBadRequest := 400
  const StatusUnauthorized := 401
  const StatusInternalServerError := 500

  datatype Body =
    | Error(error: string)                                   // {"error": …}
    | Message(message: string)                               // {"message": …}
    | Created(message: string, summaryId: string)            // {"message", "summary_id"}
    | Summaries(items: seq<SummaryRepository.SummaryRecord>) // the documents found
    | Authenticated(userId: string, userInfo: Payload)       // {"message": "Authenticated", "user_id", "user_info"}
    | LoginUrl(url: string)                                  // {"url": …}
    | Text(text: string)                                     // a bare JSON string
    | UserInfo(info: Payload)                                // the provider's profile object
    | StoreFault                                             // {"error": err.Error()} of a driver error; its text is not modelled

  datatype Response = Response(status: int, body: Body)

  /** The reply of echo's Recover middleware to a panic inside a handler. */
  const PanicResponse := Response(StatusInternalServerError, Message("Internal Server Error"))
}
