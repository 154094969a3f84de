/**
 * The national-site record: how `NationalSite.__init__` fills its five
 * fields from a site page, with one fallback per `try` block; the line
 * `info()` formats; and the five-element list the info cache stores.
 */
module Site {
  import opened Wrappers

  datatype NationalSite = NationalSite(
    name: Option<string>,
    category: Option<string>,
    phone: Option<string>,
    address: Option<string>,
    zipcode: Option<string>)

  /**
   * What the parser finds on a site page, each text already stripped.
   * `header` is the `div.Hero-titleContainer`; inside it, `title` is the text
   * of its first link and `designation` that of `span.Hero-designation`.
   * `footer` is the `div.ParkFooter-contact`; inside it, `telephone` is the
   * text of `span.tel`, and `mailing` is the `p.adr` inside
   * `div.mailing-address` (None when either element is missing).
   * None stands for an element the parser did not find.
   */
  datatype Header = Header(title: Option<string>, designation: Option<string>)
  datatype MailingAddress = MailingAddress(
    locality: Option<string>,
    region: Option<string>,
    postalCode: Option<string>)
  datatype Footer = Footer(telephone: Option<string>, mailing: Option<MailingAddress>)
  datatype SitePage = SitePage(header: Option<Header>, footer: Option<Footer>)

  /** First `try`: `header.find("a").text`, None on any failure. */
  function NameOf(page: SitePage): Option<string> {
    if page.header.Some? then page.header.value.title else None
  }

  /** Second `try`: the designation span of the header. */
  function CategoryOf(page: SitePage): Option<string> {
    if page.header.Some? then page.header.value.designation else None
  }

  /** Third `try`: the telephone span of the footer. */
  function PhoneOf(page: SitePage): Option<string> {
    if page.footer.Some? then page.footer.value.telephone else None
  }

  /**
   * Fourth `try`: address is "locality, region" and zipcode the postal code;
   * a failure at any of its steps (even after address was assigned) resets both.
   */
  function AddressAndZipOf(page: SitePage): (Option<string>, Option<string>) {
    match page.footer
    case Some(Footer(_, Some(MailingAddress(Some(l), Some(r), Some(z))))) =>
      (Some(l + ", " + r), Some(z))
    case _ => (None, None)
  }

  /** `NationalSite(site_url=...)`: the record built from a fetched page. */
  function FromPage(page: SitePage): (site: NationalSite)
    ensures site.address.Some? <==> site.zipcode.Some?
  {
    var (address, zipcode) := AddressAndZipOf(page);
    NationalSite(NameOf(page), CategoryOf(page), PhoneOf(page), address, zipcode)
  }

  /** The address block is all or nothing: both fields are set exactly when every part was found. */
  lemma AddressAllOrNothing(page: SitePage)
    ensures FromPage(page).address.Some? <==>
      (page.footer.Some? && page.footer.value.mailing.Some? &&
       page.footer.value.mailing.value.locality.Some? &&
       page.footer.value.mailing.value.region.Some? &&
       page.footer.value.mailing.value.postalCode.Some?)
    ensures FromPage(page).address.Some? ==>
      FromPage(page).address.value ==
        page.footer.value.mailing.value.locality.value + ", " + page.footer.value.mailing.value.region.value &&
      FromPage(page).zipcode == page.footer.value.mailing.value.postalCode
  {
  }

  /** The header fields depend on the header alone, the other three on the footer alone. */
  lemma FieldsAreIndependent(page: SitePage, other: SitePage)
    ensures page.header == other.header ==>
      FromPage(page).name == FromPage(other).name && FromPage(page).category == FromPage(other).category
    ensures page.footer == other.footer ==>
      FromPage(page).phone == FromPage(other).phone &&
      FromPage(page).address == FromPage(other).address &&
      FromPage(page).zipcode == FromPage(other).zipcode
  {
  }

  /** A page missing only the telephone gives the complete record with a null phone. */
  lemma MissingPhoneOnly(page: SitePage)
    requires page.footer.Some?
    ensures FromPage(page.(footer := Some(page.footer.value.(telephone := None)))) ==
      FromPage(page).(phone := None)
  {
  }

  /** A header without its title link gives the same record with only the name null. */
  lemma MissingTitleOnly(page: SitePage)
    requires page.header.Some?
    ensures FromPage(page.(header := Some(page.header.value.(title := None)))) ==
      FromPage(page).(name := None)
  {
  }

  /** A header without its designation gives the same record with only the category null. */
  lemma MissingDesignationOnly(page: SitePage)
    requires page.header.Some?
    ensures FromPage(page.(header := Some(page.header.value.(designation := None)))) ==
      FromPage(page).(category := None)
  {
  }

  /** A footer without its mailing address keeps the phone; only address and zipcode are null. */
  lemma MissingMailingOnly(page: SitePage)
    requires page.footer.Some?
    ensures FromPage(page.(footer := Some(page.footer.value.(mailing := None)))) ==
      FromPage(page).(address := None, zipcode := None)
  {
  }

  /** A page on which every part is found gives a record with every field set from it. */
  lemma CompletePage(title: string, designation: string, telephone: string, locality: string, region: string, postalCode: string)
    ensures FromPage(SitePage(
      Some(Header(Some(title), Some(designation))),
      Some(Footer(Some(telephone), Some(MailingAddress(Some(locality), Some(region), Some(postalCode))))))) ==
      NationalSite(Some(title), Some(designation), Some(telephone), Some(locality + ", " + region), Some(postalCode))
  {
  }

  /** A page without a header block still keeps its phone and address. */
  lemma MissingHeaderOnly(page: SitePage)
    ensures FromPage(page.(header := None)) == FromPage(page).(name := None, category := None)
  {
  }

  /** How an f-string shows an optional field: `None` for a missing value. */
  function Show(field: Option<string>): string {
    if field.Some? then field.value else "None"
  }

  /** `info()`: "name (category): address zipcode". */
  function Info(site: NationalSite): (line: string)
    ensures |line| == |Show(site.name)| + |Show(site.category)| + |Show(site.address)| + |Show(site.zipcode)| + 6
    ensures line[..|Show(site.name)|] == Show(site.name)
    ensures line[|Show(site.name)|..|Show(site.name)| + 2] == " ("
    ensures line[|Show(site.name)| + 2..|Show(site.name)| + 2 + |Show(site.category)|] == Show(site.category)
    ensures line[|Show(site.name)| + 2 + |Show(site.category)|..|Show(site.name)| + 5 + |Show(site.category)|] == "): "
    ensures line[|Show(site.name)| + 5 + |Show(site.category)|..|line| - |Show(site.zipcode)| - 1] == Show(site.address)
    ensures line[|line| - |Show(site.zipcode)| - 1] == ' '
    ensures line[|line| - |Show(site.zipcode)|..] == Show(site.zipcode)
  {
    Show(site.name) + " (" + Show(site.category) + "): " + Show(site.address) + " " + Show(site.zipcode)
  }

  /** The JSON list the info cache holds for a site. */
  type InfoRecord = seq<Option<string>>

  /** `[info.name, info.category, info.phone, info.address, info.zipcode]`. */
  function Encode(site: NationalSite): (record: InfoRecord)
    ensures |record| == 5
  {
    [site.name, site.category, site.phone, site.address, site.zipcode]
  }

  /**
   * `name, category, phone, address, zipcode = record` followed by
   * `NationalSite(name, category, phone, address, zipcode)`; unpacking a list
   * of another length raises ValueError.
   */
  function Decode(record: InfoRecord): (site: Result<NationalSite>)
    ensures site.Ok? <==> |record| == 5
    ensures site.Err? ==> site.error == ValueError
  {
    if |record| == 5 then Ok(NationalSite(record[0], record[1], record[2], record[3], record[4]))
    else Err(ValueError)
  }

  /** A record written on a miss is read back on a hit as the same site, field by field. */
  lemma DecodeEncode(site: NationalSite)
    ensures Decode(Encode(site)) == Ok(site)
  {
  }

  /** Every five-element record is the encoding of the site it decodes to. */
  lemma EncodeDecode(record: InfoRecord)
    requires |record| == 5
    ensures Encode(Decode(record).value) == record
  {
    assert Encode(Decode(record).value) == [record[0], record[1], record[2], record[3], record[4]];
  }
}
