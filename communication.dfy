/**
 * The email dispatcher: routes a work-order draft to the department that
 * owns its issue type and either simulates the send (the default password)
 * or hands the message to an SMTP server, whose behaviour is a parameter.
 */
module Communication {
  import opened Wrappers
  import opened Text
  import WorkOrders

  /** The password that switches the dispatcher to simulated sending. */
  const MockPassword: string := "mock_password"

  /** The contact for each routing key. */
  const DeptContacts: map<string, string> := map[
    "pothole" := "roads@municipality.gov.in",
    "street_light" := "electric@municipality.gov.in",
    "garbage" := "sanity@municipality.gov.in",
    "admin" := "admin@civic-eye.ai"]

  /** The dispatcher's settings (the SMTP port is not modelled). */
  datatype Config = Config(smtpServer: string, senderEmail: string, senderPassword: string)

  /** The settings read from the environment, with their defaults. */
  function ConfigFromEnv(env: map<string, string>): (c: Config)
    ensures "SENDER_PASSWORD" !in env ==> c.senderPassword == MockPassword
    ensures "SENDER_EMAIL" !in env ==> c.senderEmail == "alert@civic-eye.ai"
    ensures "SMTP_SERVER" !in env ==> c.smtpServer == "smtp.gmail.com"
    ensures "SENDER_PASSWORD" in env ==> c.senderPassword == env["SENDER_PASSWORD"]
    ensures "SENDER_EMAIL" in env ==> c.senderEmail == env["SENDER_EMAIL"]
    ensures "SMTP_SERVER" in env ==> c.smtpServer == env["SMTP_SERVER"]
  {
    Config(
      if "SMTP_SERVER" in env then env["SMTP_SERVER"] else "smtp.gmail.com",
      if "SENDER_EMAIL" in env then env["SENDER_EMAIL"] else "alert@civic-eye.ai",
      if "SENDER_PASSWORD" in env then env["SENDER_PASSWORD"] else MockPassword)
  }

  /**
   * The keys of the work-order dictionary the dispatcher reads; a missing
   * dictionary, `pdf_data` or `technical_specs` leaves the key absent.
   */
  datatype WorkOrderData = WorkOrderData(workOrderId: Option<string>, textPreview: Option<string>, specsIssueType: Option<string>)

  /** The dictionary a generated draft arrives as. */
  function AsData(w: WorkOrders.WorkOrder): WorkOrderData {
    WorkOrderData(Some(w.workOrderId), Some(w.textPreview), Some(w.pdfData.technicalSpecs.issueType))
  }

  datatype Email = Email(sender: string, recipient: string, subject: string, body: string)

  /** What the SMTP exchange (connect, STARTTLS, login, send) does with a message. */
  datatype SmtpOutcome = Delivered | Raised(error: string)
  type Smtp = Email -> SmtpOutcome

  datatype DispatchStatus = Sent | Failed | Mocked
  /** The dictionary `dispatch_work_order` returns. */
  datatype Reply = Reply(status: DispatchStatus, msg: string)
  /** The reply, and the message given to the SMTP server when one was contacted. */
  datatype Dispatch = Dispatch(reply: Reply, handedOver: Option<Email>)

  /**
   * The routing key of an issue type read in lower case: the first of
   * "pothole", "light", "garbage" it contains decides, and "admin" otherwise.
   */
  function IssueKey(issue: string): (key: string)
    ensures key in DeptContacts
    ensures key == "pothole" <==> Contains(issue, "pothole")
    ensures key == "street_light" <==> !Contains(issue, "pothole") && Contains(issue, "light")
    ensures key == "garbage" <==> !Contains(issue, "pothole") && !Contains(issue, "light") && Contains(issue, "garbage")
  {
    if Contains(issue, "pothole") then "pothole"
    else if Contains(issue, "light") then "street_light"
    else if Contains(issue, "garbage") then "garbage"
    else "admin"
  }

  /** A non-empty override wins; otherwise the contact for the draft's issue type (a pothole when none is given). */
  function Recipient(data: WorkOrderData, recipientOverride: Option<string>): (to: string)
    ensures recipientOverride.Some? && recipientOverride.value != "" ==> to == recipientOverride.value
    ensures !(recipientOverride.Some? && recipientOverride.value != "") ==>
      to == DeptContacts[IssueKey(Lower(data.specsIssueType.GetOr("pothole")))]
  {
    if recipientOverride.Some? && recipientOverride.value != "" then recipientOverride.value
    else DeptContacts[IssueKey(Lower(data.specsIssueType.GetOr("pothole")))]
  }

  function Subject(workOrderId: string): string {
    "ACTION REQUIRED: Work Order " + workOrderId + " - High Priority Alert"
  }

  /**
   * `dispatch_work_order`: a failure for data without an order id, the
   * KeyError raised when the text is missing, a simulated send under the
   * default password, and otherwise the SMTP server's verdict.
   */
  function DispatchWorkOrder(config: Config, data: WorkOrderData, recipientOverride: Option<string>, smtp: Smtp)
    : (r: Result<Dispatch>)
    ensures data.workOrderId.None? ==> r == Ok(Dispatch(Reply(Failed, "Invalid work order data"), None))
    ensures data.workOrderId.Some? && data.textPreview.None? ==> r == KeyError("text_preview")
    ensures data.workOrderId.Some? && data.textPreview.Some? ==> r.Ok?
    // simulated: nothing reaches a server
    ensures r.Ok? && config.senderPassword == MockPassword && data.workOrderId.Some? ==>
      r.value == Dispatch(Reply(Mocked, "Email simulated to " + Recipient(data, recipientOverride)), None)
    // real: the server receives the draft text, addressed to the routed recipient
    ensures r.Ok? && config.senderPassword != MockPassword && data.workOrderId.Some? ==>
      && r.value.handedOver.Some?
      && var email := r.value.handedOver.value;
      && email.sender == config.senderEmail
      && email.recipient == Recipient(data, recipientOverride)
      && email.subject == Subject(data.workOrderId.value) && Contains(email.subject, data.workOrderId.value)
      && email.body == data.textPreview.value
      && (r.value.reply.status == Sent <==> smtp(email).Delivered?)
      && (r.value.reply.status == Sent ==> r.value.reply.msg == "Email sent to " + email.recipient)
      && (r.value.reply.status == Failed <==> smtp(email).Raised?)
      && (r.value.reply.status == Failed ==> r.value.reply.msg == smtp(email).error)
    // sending is reported only when the server accepted the message
    ensures r.Ok? && r.value.reply.status == Sent ==> r.value.handedOver.Some? && smtp(r.value.handedOver.value).Delivered?
  {
    if data.workOrderId.None? then Ok(Dispatch(Reply(Failed, "Invalid work order data"), None))
    else
      var recipient := Recipient(data, recipientOverride);
      var id := data.workOrderId.value;
      var subject := Subject(id);
      if data.textPreview.None? then KeyError("text_preview")
      else
        var email := Email(config.senderEmail, recipient, subject, data.textPreview.value);
        if config.senderPassword == MockPassword then
          Ok(Dispatch(Reply(Mocked, "Email simulated to " + recipient), None))
        else
          SubjectNamesOrder(id);
          match smtp(email)
          case Delivered => Ok(Dispatch(Reply(Sent, "Email sent to " + recipient), Some(email)))
          case Raised(e) => Ok(Dispatch(Reply(Failed, e), Some(email)))
  }

  lemma SubjectNamesOrder(id: string)
    ensures Contains(Subject(id), id)
  {
    var prefix := "ACTION REQUIRED: Work Order ";
    assert Subject(id)[|prefix|..|prefix| + |id|] == id;
    assert OccursAt(Subject(id), id, |prefix|);
    ContainsIff(Subject(id), id);
  }

  /** A word is found in any text that has it at a known position. */
  lemma ContainsAt(s: string, sub: string, i: nat)
    requires i + |sub| <= |s| && s[i..i + |sub|] == sub
    ensures Contains(s, sub)
  {
    assert OccursAt(s, sub, i);
    ContainsIff(s, sub);
  }

  lemma PotholeWords()
    ensures Contains("pothole", "pothole")
  {
    ContainsAt("pothole", "pothole", 0);
  }

  lemma StreetLightWords()
    ensures !Contains("street_light", "pothole") && Contains("street_light", "light")
  {
    StreetLightLacksPothole();
    StreetLightHasLight();
  }

  lemma StreetLightLacksPothole()
    ensures !Contains("street_light", "pothole")
  {
    ContainsNeedsFirstChar("street_light", "pothole");
  }

  lemma StreetLightHasLight()
    ensures Contains("street_light", "light")
  {
    ContainsAt("street_light", "light", 7);
  }

  lemma GarbageWords()
    ensures !Contains("garbage", "pothole") && !Contains("garbage", "light") && Contains("garbage", "garbage")
  {
    ContainsNeedsFirstChar("garbage", "pothole");
    ContainsNeedsFirstChar("garbage", "light");
    ContainsAt("garbage", "garbage", 0);
  }

  /** Each department key routes to itself. */
  lemma KeyRoutesToItself(key: string)
    requires key in WorkOrders.DepartmentMap
    ensures IssueKey(key) == key
  {
    if key == "pothole" {
      PotholeWords();
    } else if key == "street_light" {
      StreetLightWords();
    } else {
      GarbageWords();
    }
  }

  /**
   * A draft for each of the three department keys reaches that department's
   * contact: the title-cased issue type maps back to the key it came from.
   */
  lemma DraftRoutesToDepartment(key: string, w: WorkOrders.WorkOrder)
    requires key in WorkOrders.DepartmentMap
    requires Lower(w.pdfData.technicalSpecs.issueType) == Lower(key)
    ensures Recipient(AsData(w), None) == DeptContacts[key]
  {
    LowerOfLowercase(key);
    KeyRoutesToItself(key);
  }
}
