/** Social links of the landing page: on submit the link is stored with a
    `mailto:` or `tel:` scheme according to its redirect type; opening an
    existing link for edit detects the type and strips the scheme again. */
module SocialLinks {

  import opened Wrappers
  import opened Strings

  const MailtoScheme: string := "mailto:"
  const TelScheme: string := "tel:"

  /** The redirect type chosen in the form's select. */
  datatype RedirectType = Url | Email | Phone

  /** A stored social link. */
  datatype SocialLink = SocialLink(id: string, name: string, link: string, icon: string)

  /** The form's values. */
  datatype LinkValues = LinkValues(name: string, link: string, icon: string, redirectType: RedirectType)

  /** What is sent to the server: `{ name, link, icon }`. */
  datatype Payload = Payload(name: string, link: string, icon: string)

  /** The mutation a submit issues. */
  datatype Request =
    | CreateLink(data: Payload)
    | EditLink(socialLinkId: string, data: Payload)

  /** The stored form of a link entered with redirect type `t`. */
  function EncodeLink(t: RedirectType, link: string): (r: string)
    ensures t == Url ==> r == link
    ensures t == Email ==> StartsWith(r, MailtoScheme) && r[|MailtoScheme|..] == link
    ensures t == Phone ==> StartsWith(r, TelScheme) && r[|TelScheme|..] == link
  {
    match t
    case Email => MailtoScheme + link
    case Phone => TelScheme + link
    case Url => link
  }

  /** The redirect type the edit form shows for a stored link. */
  function DetectType(stored: string): (r: RedirectType)
    ensures r == Email <==> StartsWith(stored, MailtoScheme)
    ensures r == Phone <==> !StartsWith(stored, MailtoScheme) && StartsWith(stored, TelScheme)
  {
    if StartsWith(stored, MailtoScheme) then Email
    else if StartsWith(stored, TelScheme) then Phone
    else Url
  }

  /** `stored.replace(/^mailto:|tel:/, "")` as written: a leading
      `mailto:`, or else the first `tel:` anywhere in the link, is removed. */
  function StripAsWritten(stored: string): (r: string)
    ensures StartsWith(stored, MailtoScheme) ==> MailtoScheme + r == stored
    ensures !StartsWith(stored, MailtoScheme) && !Contains(stored, TelScheme) ==> r == stored
    ensures !StartsWith(stored, MailtoScheme) && Contains(stored, TelScheme) ==>
      |r| == |stored| - |TelScheme| &&
      exists i :: 0 <= i <= |r| && stored == r[..i] + TelScheme + r[i..] &&
        forall j :: 0 <= j < i ==> !OccursAt(stored, TelScheme, j)
  {
    if StartsWith(stored, MailtoScheme) then stored[|MailtoScheme|..]
    else match IndexOf(stored, TelScheme)
      case Some(i) =>
        var r := stored[..i] + stored[i + |TelScheme|..];
        assert r[..i] == stored[..i] && r[i..] == stored[i + |TelScheme|..];
        assert stored == r[..i] + TelScheme + r[i..];
        r
      case None => stored
  }

  /** The scheme removal the form evidently intends, `/^(mailto:|tel:)/`:
      only a leading scheme is removed. */
  function StripScheme(stored: string): (r: string)
    ensures StartsWith(stored, MailtoScheme) ==> MailtoScheme + r == stored
    ensures !StartsWith(stored, MailtoScheme) && StartsWith(stored, TelScheme) ==> TelScheme + r == stored
    ensures !StartsWith(stored, MailtoScheme) && !StartsWith(stored, TelScheme) ==> r == stored
  {
    if StartsWith(stored, MailtoScheme) then stored[|MailtoScheme|..]
    else if StartsWith(stored, TelScheme) then stored[|TelScheme|..]
    else stored
  }

  /** An e-mail or phone link is read back with its type and exactly the
      text entered; a URL only when it does not itself begin with a scheme. */
  lemma EncodeThenDetect(t: RedirectType, link: string)
    ensures t != Url ==> DetectType(EncodeLink(t, link)) == t && StripScheme(EncodeLink(t, link)) == link
    ensures t == Url ==>
      (DetectType(EncodeLink(t, link)) == Url && StripScheme(EncodeLink(t, link)) == link <==>
       !StartsWith(link, MailtoScheme) && !StartsWith(link, TelScheme))
  {
    var s := EncodeLink(t, link);
    if t == Email {
      assert s[..|MailtoScheme|] == MailtoScheme;
    } else if t == Phone {
      assert s[..|TelScheme|] == TelScheme;
      assert s[0] == 't';
    }
  }

  /** Opening a stored link for edit and submitting it unchanged stores the
      same link again. */
  lemma DetectThenEncode(stored: string)
    ensures EncodeLink(DetectType(stored), StripScheme(stored)) == stored
  {
    if StartsWith(stored, MailtoScheme) {
      assert stored == MailtoScheme + stored[|MailtoScheme|..];
    } else if StartsWith(stored, TelScheme) {
      assert stored == TelScheme + stored[|TelScheme|..];
    }
  }

  /** Opening a stored link for edit with the expression as written and
      submitting it unchanged stores the same link exactly when the link
      begins with a scheme or contains no `tel:` at all. */
  lemma DetectThenEncodeAsWritten(stored: string)
    ensures EncodeLink(DetectType(stored), StripAsWritten(stored)) == stored <==>
      StartsWith(stored, MailtoScheme) || StartsWith(stored, TelScheme) || !Contains(stored, TelScheme)
  {
    var r := StripAsWritten(stored);
    if StartsWith(stored, MailtoScheme) {
      assert DetectType(stored) == Email;
      assert MailtoScheme + r == stored;
    } else if StartsWith(stored, TelScheme) {
      assert DetectType(stored) == Phone;
      assert OccursAt(stored, TelScheme, 0);
      assert IndexOf(stored, TelScheme) == Some(0);
      assert r == stored[|TelScheme|..];
      assert stored == TelScheme + r;
    } else {
      assert DetectType(stored) == Url;
      assert EncodeLink(Url, r) == r;
      if Contains(stored, TelScheme) {
        assert |r| == |stored| - |TelScheme|;
      }
    }
  }

  /** With the regular expression as written, e-mail and phone links still
      read back, but a URL only when it neither begins with `mailto:` nor
      contains `tel:` anywhere. */
  lemma EncodeThenStripAsWritten(t: RedirectType, link: string)
    ensures t != Url ==> StripAsWritten(EncodeLink(t, link)) == link
    ensures t == Url ==>
      (StripAsWritten(EncodeLink(t, link)) == link <==> !StartsWith(link, MailtoScheme) && !Contains(link, TelScheme))
  {
    var s := EncodeLink(t, link);
    if t == Email {
      assert s[..|MailtoScheme|] == MailtoScheme;
    } else if t == Phone {
      assert !StartsWith(s, MailtoScheme) by { assert s[0] == 't'; }
      assert OccursAt(s, TelScheme, 0);
      assert IndexOf(s, TelScheme) == Some(0);
    } else if !StartsWith(link, MailtoScheme) {
      match IndexOf(link, TelScheme)
      case Some(i) =>
        assert |StripAsWritten(link)| == |link| - 4;
      case None =>
    }
  }

  /** In `https://x.co/tel:1` the first `tel:` starts at position 13. */
  lemma FirstTelInUrl(prefix: string, stored: string)
    requires prefix == "https://x.co/" && stored == prefix + TelScheme + "1"
    ensures IndexOf(stored, TelScheme) == Some(13)
  {
    assert 'e' !in prefix;
    // Before position 13 no `tel:` can start: its `e` would fall in `prefix`.
    forall j | 0 <= j < 13 ensures !OccursAt(stored, TelScheme, j) {
      assert stored[j + 1] != 'e' by {
        if j + 1 < 13 {
          assert stored[j + 1] == prefix[j + 1];
          assert prefix[j + 1] in prefix;
        } else {
          assert stored[13] == 't';
        }
      }
      assert stored[j..j + |TelScheme|][1] == stored[j + 1];
    }
    assert stored[13..17] == TelScheme;
    assert OccursAt(stored, TelScheme, 13);
  }

  /** A URL that contains `tel:` is changed by editing it without touching it. */
  lemma StripAsWrittenCorruptsUrl()
    ensures var stored := "https://x.co/tel:1";
      DetectType(stored) == Url &&
      EncodeLink(DetectType(stored), StripAsWritten(stored)) == "https://x.co/1" &&
      EncodeLink(DetectType(stored), StripScheme(stored)) == stored
  {
    var prefix := "https://x.co/";
    var stored := prefix + TelScheme + "1";
    assert stored == "https://x.co/tel:1";
    assert stored[..|MailtoScheme|] != MailtoScheme by {
      assert stored[..|MailtoScheme|][0] == 'h';
    }
    assert stored[..|TelScheme|] != TelScheme by {
      assert stored[..|TelScheme|][0] == 'h';
    }
    FirstTelInUrl(prefix, stored);
    assert !StartsWith(stored, MailtoScheme) && !StartsWith(stored, TelScheme);
    assert StripAsWritten(stored) == stored[..13] + stored[17..];
    assert stored[..13] == prefix && stored[17..] == "1";
    assert StripScheme(stored) == stored;
  }

  /** The manager's state: the modal, the link being edited and the form's values. */
  class SocialLinkManagerState {
    var modalOpen: bool
    var editingItem: Option<SocialLink>
    /** The form's fields; `None` once they are reset. */
    var form: Option<LinkValues>

    constructor ()
      ensures !modalOpen && editingItem.None? && form.None?
    {
      modalOpen, editingItem, form := false, None, None;
    }

    /** `openCreateModal`: nothing being edited, empty fields, modal open. */
    method OpenCreateModal()
      modifies this
      ensures editingItem.None? && form.None? && modalOpen
    {
      editingItem := None;
      form := None;
      modalOpen := true;
    }

    /** `openEditModal`: the fields show the link with the scheme removed
        by the expression as written, and the detected redirect type. */
    method OpenEditModal(item: SocialLink)
      modifies this
      ensures form == Some(LinkValues(item.name, StripAsWritten(item.link), item.icon, DetectType(item.link)))
      ensures editingItem == Some(item) && modalOpen
    {
      form := Some(LinkValues(item.name, StripAsWritten(item.link), item.icon, DetectType(item.link)));
      editingItem := Some(item);
      modalOpen := true;
    }

    /** `handleSubmit`: an edit when a link is being edited, a create if
        not. A create is fired without waiting, so the modal always closes;
        an edit is awaited (`serverOk` is how it ended) and the modal stays
        open, as it was, when it fails. */
    method HandleSubmit(values: LinkValues, serverOk: bool) returns (req: Request)
      modifies this
      ensures var payload := Payload(values.name, EncodeLink(values.redirectType, values.link), values.icon);
        req == if old(editingItem).Some? then EditLink(old(editingItem).value.id, payload) else CreateLink(payload)
      ensures old(editingItem).None? || serverOk ==> !modalOpen && form.None? && editingItem.None?
      ensures old(editingItem).Some? && !serverOk ==>
        modalOpen == old(modalOpen) && form == old(form) && editingItem == old(editingItem)
    {
      var payload := Payload(values.name, EncodeLink(values.redirectType, values.link), values.icon);
      if editingItem.Some? {
        req := EditLink(editingItem.value.id, payload);
        if !serverOk {
          return;
        }
      } else {
        req := CreateLink(payload);
      }
      modalOpen := false;
      form := None;
      editingItem := None;
    }
  }

  /** Editing a stored link and saving it without changes sends an edit of
      that link with the same name and icon. The link comes back unchanged
      exactly when it begins with a scheme or contains no `tel:`; a URL
      with `tel:` inside it loses that `tel:`. */
  method EditWithoutChanges(item: SocialLink) returns (req: Request)
    ensures req.EditLink? && req.socialLinkId == item.id
    ensures req.data.name == item.name && req.data.icon == item.icon
    ensures req.data.link == item.link <==>
      StartsWith(item.link, MailtoScheme) || StartsWith(item.link, TelScheme) || !Contains(item.link, TelScheme)
  {
    var manager := new SocialLinkManagerState();
    manager.OpenEditModal(item);
    DetectThenEncodeAsWritten(item.link);
    req := manager.HandleSubmit(manager.form.value, true);
  }
}
