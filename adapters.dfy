/** Adapter: a notifier that sends through an adapter, and two adapters onto an e-mail service
    and an SMS service. */
module Adapters {

  datatype Service = EmailService | SmsService
  {
    /** The word each service's confirmation starts with. */
    function Word(): string
    {
      match this
      case EmailService => "Email"
      case SmsService => "SMS"
    }

    /** `sendEmail($to, $message)` and `sendSMS($to, $message)`: the confirmation names the
        recipient first and quotes the message. */
    function Send(to: string, message: string): (r: string)
      ensures |r| == |Word()| + |to| + |message| + 25
      ensures r[..|Word()|] == Word()
      ensures r[|Word()|..|Word()| + 9] == " sent to "
      ensures r[|Word()| + 9..|Word()| + 9 + |to|] == to
      ensures r[|Word()| + 9 + |to|..|Word()| + 24 + |to|] == " with message '"
      ensures r[|r| - |message| - 1..|r| - 1] == message
      ensures r[|r| - 1] == '\''
    {
      var head := Word() + " sent to " + to;
      var body := head + " with message '" + message;
      assert body[..|head|] == head;
      body + "'"
    }
  }

  /** Both adapters implement `sendNotification($to, $message)` over a service fixed when the
      adapter is built. */
  datatype Adapter = EmailAdapter | SmsAdapter
  {
    function Service(): Service
    {
      match this
      case EmailAdapter => EmailService
      case SmsAdapter => SmsService
    }

    /** As written: the e-mail adapter forwards its two arguments in order, the SMS adapter
        swaps them, so the SMS confirmation names the adapter's `message` as recipient. */
    function SendNotification(to: string, message: string): (r: string)
      ensures this == EmailAdapter ==> r == EmailService.Send(to, message)
      ensures this == SmsAdapter ==> r == SmsService.Send(message, to)
    {
      match this
      case EmailAdapter => EmailService.Send(to, message)
      case SmsAdapter => SmsService.Send(message, to)
    }

    /** Corrected: each adapter forwards its arguments in order. */
    function SendNotificationCorrected(to: string, message: string): (r: string)
      ensures r == Service().Send(to, message)
    {
      match this
      case EmailAdapter => EmailService.Send(to, message)
      case SmsAdapter => SmsService.Send(to, message)
    }
  }

  /** The e-mail adapter already forwards in order: the correction leaves it as it is. */
  lemma EmailAdapterForwardsInOrder(to: string, message: string)
    ensures EmailAdapter.SendNotification(to, message) == EmailAdapter.SendNotificationCorrected(to, message)
    ensures EmailAdapter.SendNotification(to, message) == EmailService.Send(to, message)
  {
  }

  /** The notifier over one adapter, fixed at construction. */
  datatype Notifier = Notifier(adapter: Adapter)
  {
    /** As written: `notify($message, $to)` calls `sendNotification($message, $to)`, so the
        adapter's `$to` receives the message. Through the e-mail adapter the confirmation names
        `message` as recipient; through the SMS adapter the two swaps cancel and it names `to`. */
    function Notify(message: string, to: string): (r: string)
      ensures adapter == EmailAdapter ==> r == EmailService.Send(message, to)
      ensures adapter == SmsAdapter ==> r == SmsService.Send(to, message)
    {
      adapter.SendNotification(message, to)
    }

    /** Corrected: every adapter delivers `message` to `to`. */
    function NotifyCorrected(message: string, to: string): (r: string)
      ensures r == adapter.Service().Send(to, message)
    {
      adapter.SendNotificationCorrected(to, message)
    }
  }

  /** The two paths put the recipient in opposite positions of `notify`: calling the e-mail
      notifier and the SMS notifier with the same two arguments names different recipients,
      and the SMS notifier with the arguments swapped reads like the e-mail one. */
  lemma PathsSwapRecipient(first: string, second: string)
    ensures Notifier(EmailAdapter).Notify(first, second) == EmailService.Send(first, second)
    ensures Notifier(SmsAdapter).Notify(second, first) == SmsService.Send(first, second)
  {
  }

  /** The e-mail service's confirmation for sending "bob@example.com" to "Hello", spelled out. */
  lemma EmailToHelloText()
    ensures EmailService.Send("Hello", "bob@example.com")
         == "Email sent to Hello with message 'bob@example.com'"
  {
    assert "Email" + " sent to " + "Hello" == "Email sent to Hello";
    assert "Email sent to Hello" + " with message '" + "bob@example.com"
        == "Email sent to Hello with message 'bob@example.com";
  }

  /** The discrepancy, on a concrete call: the e-mail notifier asked to send "Hello" to
      "bob@example.com" reports sending "bob@example.com" to "Hello". */
  lemma NotifyEmailMisroutes()
    ensures Notifier(EmailAdapter).Notify("Hello", "bob@example.com")
         == "Email sent to Hello with message 'bob@example.com'"
    ensures Notifier(EmailAdapter).Notify("Hello", "bob@example.com")
         != Notifier(EmailAdapter).NotifyCorrected("Hello", "bob@example.com")
  {
    EmailToHelloText();
    var asWritten := EmailService.Send("Hello", "bob@example.com");
    var corrected := EmailService.Send("bob@example.com", "Hello");
    assert asWritten[14..19] == "Hello";
    assert corrected[14..29] == "bob@example.com";
    assert asWritten[14] != corrected[14];
  }

  /** On the SMS path the correction changes nothing: the notifier's swap and the adapter's
      swap cancel. */
  lemma SmsUnaffectedByCorrection(message: string, to: string)
    ensures Notifier(SmsAdapter).Notify(message, to) == Notifier(SmsAdapter).NotifyCorrected(message, to)
  {
  }

  /** The demonstration script, which passes the address first to the e-mail notifier and the
      text first to the SMS notifier: both confirmations then name the address or number as
      recipient and quote the text. */
  lemma AdapterDemo()
    ensures Notifier(EmailAdapter).Notify("alhossnizakaria@gmail.com", "This is an Email notification.")
         == EmailService.Send("alhossnizakaria@gmail.com", "This is an Email notification.")
    ensures Notifier(SmsAdapter).Notify("This is an SMS notification.", "1234567890")
         == SmsService.Send("1234567890", "This is an SMS notification.")
  {
  }
}
