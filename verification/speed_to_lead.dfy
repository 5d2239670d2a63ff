/** The "does your team answer in 10 seconds" widget
    (src/components/sections/SpeedToLead.tsx): a phone number, a call
    button and a four-state status. The webhook and the simulation timer are
    outside the model: their completions are methods called from outside. */
module SpeedToLead {
  import opened Optional

  datatype Status = Idle | Calling | Success | Error

  const InvalidPhoneMessage := "Please enter a valid phone number"
  const OfflineMessage := "Failed to connect. System may be offline."
  const LeadSource := "w3-website-speed-to-lead"

  /** The check `!phone || phone.length < 10`, turned around: it counts
      characters, not digits. */
  function AcceptsPhone(phone: string): (ok: bool)
    ensures ok <==> |phone| >= 10
  {
    !(phone == "" || |phone| < 10)
  }

  /** Any ten characters pass; nine digits do not. */
  lemma AcceptsPhoneExamples()
    ensures AcceptsPhone("abcdefghij")
    ensures !AcceptsPhone("555123456")
    ensures !AcceptsPhone("")
  {
  }

  /** The JSON body posted to the webhook; the timestamp comes from the clock. */
  datatype CallRequest = CallRequest(phone: string, source: string, timestamp: string)

  /** What the widget is waiting for while it shows `calling`. */
  datatype Pending = Nothing | AwaitingWebhook | AwaitingTimer

  /** How the webhook request settles: any response, whatever its HTTP
      status, or a thrown error. */
  datatype Delivery = Responded | Threw

  class Widget {
    var phoneNumber: string
    var status: Status
    var errorMessage: string
    var pending: Pending

    /** An error message is shown exactly in the `error` state, and the
        widget waits for something exactly while it is `calling`. */
    ghost predicate Valid()
      reads this
    {
      && (status == Error <==> errorMessage != "")
      && errorMessage in {"", InvalidPhoneMessage, OfflineMessage}
      && (status == Calling <==> pending != Nothing)
    }

    /** The button is disabled while calling and after success. */
    predicate ButtonEnabled()
      reads this
    {
      status != Calling && status != Success
    }

    constructor ()
      ensures Valid()
      ensures phoneNumber == "" && status == Idle && errorMessage == "" && pending == Nothing
    {
      phoneNumber, status, errorMessage, pending := "", Idle, "", Nothing;
    }

    /** Typing into the number box, allowed in every state. */
    method SetPhone(text: string)
      requires Valid()
      modifies this`phoneNumber
      ensures Valid() && phoneNumber == text
    {
      phoneNumber := text;
    }

    /** `handleCall`, up to the webhook call or the timer it starts. */
    method HandleCall(webhookConfigured: bool, now: string) returns (request: Option<CallRequest>)
      requires Valid() && ButtonEnabled()
      modifies this
      ensures Valid()
      ensures !AcceptsPhone(phoneNumber) ==>
                status == Error && errorMessage == InvalidPhoneMessage && request == None
      ensures AcceptsPhone(phoneNumber) ==> status == Calling && errorMessage == ""
      ensures AcceptsPhone(phoneNumber) && webhookConfigured ==>
                request == Some(CallRequest(phoneNumber, LeadSource, now)) && pending == AwaitingWebhook
      ensures AcceptsPhone(phoneNumber) && !webhookConfigured ==>
                request == None && pending == AwaitingTimer
      ensures phoneNumber == old(phoneNumber)
    {
      if !AcceptsPhone(phoneNumber) {
        errorMessage := InvalidPhoneMessage;
        status := Error;
        return None;
      }
      status := Calling;
      errorMessage := "";
      if webhookConfigured {
        pending := AwaitingWebhook;
        request := Some(CallRequest(phoneNumber, LeadSource, now));
      } else {
        pending := AwaitingTimer;
        request := None;
      }
    }

    /** The webhook request settles. */
    method WebhookSettled(delivery: Delivery)
      requires Valid() && pending == AwaitingWebhook
      modifies this
      ensures Valid() && pending == Nothing
      ensures delivery == Responded ==> status == Success && errorMessage == ""
      ensures delivery == Threw ==> status == Error && errorMessage == OfflineMessage
      ensures phoneNumber == old(phoneNumber)
    {
      pending := Nothing;
      if delivery == Responded {
        status := Success;
      } else {
        errorMessage := OfflineMessage;
        status := Error;
      }
    }

    /** The two-second simulation timer fires. */
    method TimerFired()
      requires Valid() && pending == AwaitingTimer
      modifies this
      ensures Valid() && pending == Nothing
      ensures status == Success && errorMessage == ""
      ensures phoneNumber == old(phoneNumber)
    {
      pending := Nothing;
      status := Success;
    }
  }
}
