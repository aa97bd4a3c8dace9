/** The responses the two Express handlers send: a status code and a JSON body. */
module Http {
  import opened JsValues

  datatype Body =
    | ErrorBody(error: string)                        // `{ error }`
    | ChatReply(reply: string, suggestions: Value)    // `{ reply, suggestions }`
    | DraftCreated(tripId: nat)                       // `{ trip_id }`

  datatype Response = Response(status: nat, body: Body)
}
