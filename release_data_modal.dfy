/**
 * The release screen (ReleaseDataModal.jsx): renders the same bundle as the
 * automatic release, with its own notice line, and prepares an e-mail draft
 * addressed to every trustee.
 */
module ReleaseDataModal {
  import opened Wrappers
  import opened Records
  import opened JsText
  import opened Storage
  import opened Bundle

  const ModalNotice := "This information has been released to trustees as requested."

  /**
   * The screen's bundle and the automatic release's differ only in the
   * banner: after it, the two texts are the same.
   */
  lemma BundleMatchesAutomaticRelease(otherNotice: string, dateLine: string, ps: seq<Page>, decrypt: Page -> Option<Entry>)
    ensures var mine := Render(ModalNotice, dateLine, ps, decrypt);
      var other := Render(otherNotice, dateLine, ps, decrypt);
      mine[|Banner(ModalNotice, dateLine)|..] == other[|Banner(otherNotice, dateLine)|..]
  {
    var rest := Sections(ps, Categories(ps), decrypt) + Footer;
    var b1 := Banner(ModalNotice, dateLine);
    var b2 := Banner(otherNotice, dateLine);
    assert Render(ModalNotice, dateLine, ps, decrypt) == b1 + rest;
    assert Render(otherNotice, dateLine, ps, decrypt) == b2 + rest;
    assert (b1 + rest)[|b1|..] == rest;
    assert (b2 + rest)[|b2|..] == rest;
  }

  /** `trustees.map(t => t.email)`. */
  function Emails(ts: seq<Trustee>): (es: seq<string>)
    ensures |es| == |ts| && forall i :: 0 <= i < |ts| ==> es[i] == ts[i].email
  {
    seq(|ts|, i requires 0 <= i < |ts| => ts[i].email)
  }

  /** The recipient list of the mailto link: the e-mails joined by ','. */
  function Recipients(ts: seq<Trustee>): string
  {
    Join(Emails(ts), ',')
  }

  /**
   * The recipient list loses no trustee and adds none: when no address holds
   * a comma, splitting it on ',' gives back every e-mail in order.
   */
  lemma RecipientsListEveryTrustee(ts: seq<Trustee>)
    requires ts != []
    requires forall i :: 0 <= i < |ts| ==> ',' !in ts[i].email
    ensures Split(Recipients(ts), ',') == Emails(ts)
  {
    SplitJoin(Emails(ts), ',');
  }

  /** The draft handleEmail hands to the mail client (before URL encoding). */
  datatype Draft = Draft(recipients: string, subject: string, body: string)

  function DraftBody(formattedData: string, dateLine: string): string
  {
    "Dear Trustee(s),\n\n"
    + "This email contains the released information from Legacy Organizer.\n\n"
    + "Please find the information attached or in the email body below.\n\n"
    + "---\n\n"
    + formattedData
    + "\n\n---\n\n"
    + "This information was released on " + dateLine + ".\n\n"
    + "Please keep this information secure and confidential.\n\n"
    + "Best regards,\n"
    + "Legacy Organizer"
  }

  class Modal {
    const store: Store
    var loading: bool
    var formattedData: string
    var trustees: seq<Trustee>

    constructor (store: Store)
      ensures this.store == store && loading && formattedData == "" && trustees == []
    {
      this.store := store;
      loading, formattedData, trustees := true, "", [];
    }

    /** loadAndFormatData: keeps the trustees for the e-mail and renders every page. */
    method LoadAndFormatData(decrypt: Page -> Option<Entry>, dateLine: string)
      returns (ghost pagesListed: seq<Page>, ghost pageKeys: seq<string>, ghost trusteeKeys: seq<string>)
      requires store.Valid()
      modifies this
      ensures !loading
      ensures Listing(pagesListed, pageKeys, store.pages)
      ensures Listing(trustees, trusteeKeys, store.trustees)
      ensures formattedData == Render(ModalNotice, dateLine, pagesListed, decrypt)
    {
      loading := true;
      var allPages;
      allPages, pageKeys := store.GetAllPages();
      pagesListed := allPages;
      var allTrustees;
      allTrustees, trusteeKeys := store.GetTrustees();
      trustees := allTrustees;
      var formatted := RenderBundle(ModalNotice, dateLine, allPages, decrypt);
      formattedData := formatted;
      loading := false;
    }

    /** handleEmail: nothing without trustees; otherwise a draft to all of them. */
    method HandleEmail(dateLine: string) returns (draft: Option<Draft>)
      ensures trustees == [] ==> draft.None?
      ensures trustees != [] ==> draft == Some(Draft(Recipients(trustees), "Legacy Organizer - Information Release",
                                                     DraftBody(formattedData, dateLine)))
    {
      if |trustees| == 0 {
        return None;
      }
      var subject := "Legacy Organizer - Information Release";
      var body := DraftBody(formattedData, dateLine);
      var trusteeEmails := Join(Emails(trustees), ',');
      draft := Some(Draft(trusteeEmails, subject, body));
    }
  }
}
