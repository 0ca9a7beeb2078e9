/**
 * The two routing decisions of the servers: the Twilio voice webhook
 * `handle_calls` (which number or browser client to dial) and the WebSocket
 * `router` of each server (which handler serves a connection path).
 */
module CallRouting {

  /** The `<Dial>` verb of the TwiML answer: a phone number, or the browser client. */
  datatype Dial =
    | DialNumber(callerId: string, number: string)
    | DialClient(callerId: string, client: string)

  /**
   * `handle_calls`: a call whose `To` is some other number is an outbound call
   * from the browser and dials that number with the service number as caller
   * id; any other call rings the browser client named by the service number,
   * showing the `Caller` (or the service number when the form has none).
   */
  function HandleCalls(form: map<string, string>, twilioNumber: string): (d: Dial)
    ensures d.DialNumber? <==> "To" in form && form["To"] != twilioNumber
    ensures d.DialNumber? ==> d.number == form["To"] && d.callerId == twilioNumber
    ensures d.DialClient? ==> d.client == twilioNumber
    ensures d.DialClient? && "Caller" in form ==> d.callerId == form["Caller"]
    ensures d.DialClient? && "Caller" !in form ==> d.callerId == twilioNumber
  {
    if "To" in form && form["To"] != twilioNumber then
      DialNumber(twilioNumber, form["To"])
    else
      var caller := if "Caller" in form then form["Caller"] else twilioNumber;
      DialClient(caller, twilioNumber)
  }

  /** The service never places a telephone call to its own number. */
  lemma NeverDialsOwnNumber(form: map<string, string>, twilioNumber: string)
    ensures HandleCalls(form, twilioNumber).DialNumber? ==> HandleCalls(form, twilioNumber).number != twilioNumber
  {
  }

  /** What a server does with a new WebSocket connection. */
  datatype Route = TwilioHandler | ClientHandler | CloseSocket | Ignore

  /** main.py: `/twilio` and `/client` have handlers; any other path is closed. */
  function CombinedRouter(path: string): (r: Route)
    ensures r == TwilioHandler <==> path == "/twilio"
    ensures r == ClientHandler <==> path == "/client"
    ensures r == CloseSocket <==> path != "/twilio" && path != "/client"
    ensures r != Ignore
  {
    if path == "/twilio" then TwilioHandler
    else if path == "/client" then ClientHandler
    else CloseSocket
  }

  /** lib/server.py: only `/twilio` has a handler; on any other path the router returns without acting. */
  function MediaRouter(path: string): (r: Route)
    ensures r == TwilioHandler <==> path == "/twilio"
    ensures r == Ignore <==> path != "/twilio"
  {
    if path == "/twilio" then TwilioHandler else Ignore
  }
}
