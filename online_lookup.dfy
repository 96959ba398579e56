/** The offline part of the device lookup: the embedded vendor, product and
    vulnerability tables, the manufacturer-site guess, the placeholder image URLs and
    the record that gathers all of them for one device. */
module OnlineLookup {
  import opened Text

  // ---------------------------------------------------------------- vendor table

  datatype VendorInfo = VendorInfo(name: string, country: string)

  /** `VENDORS` of `get_vendor_from_database`, keyed by the lower-case vendor id. The
      dictionary display repeats `046d` and `152d` with the same value both times, so
      each key appears here once. */
  function VendorEntry(key: string): Option<VendorInfo> {
    match key
    case "0403" => Some(VendorInfo("Future Technology Devices International", "UK"))
    case "046d" => Some(VendorInfo("Logitech", "Switzerland"))
    case "047d" => Some(VendorInfo("Kensington", "USA"))
    case "0461" => Some(VendorInfo("Primax Electronics", "Taiwan"))
    case "04ca" => Some(VendorInfo("Lite-On Technology", "Taiwan"))
    case "04f2" => Some(VendorInfo("Chicony Electronics", "Taiwan"))
    case "0781" => Some(VendorInfo("SanDisk", "USA"))
    case "0930" => Some(VendorInfo("Toshiba", "Japan"))
    case "0951" => Some(VendorInfo("Kingston Technology", "USA"))
    case "05ac" => Some(VendorInfo("Apple", "USA"))
    case "058f" => Some(VendorInfo("Alcor Micro", "Taiwan"))
    case "0764" => Some(VendorInfo("Cyber Power System", "USA"))
    case "0bda" => Some(VendorInfo("Realtek Semiconductor", "Taiwan"))
    case "0e0f" => Some(VendorInfo("VMware", "USA"))
    case "1005" => Some(VendorInfo("Apacer Technology", "Taiwan"))
    case "1307" => Some(VendorInfo("Transcend Information", "Taiwan"))
    case "13fe" => Some(VendorInfo("Kingston Technology", "USA"))
    case "152d" => Some(VendorInfo("JMicron Technology", "Taiwan"))
    case "174c" => Some(VendorInfo("ASMedia Technology", "Taiwan"))
    case "18a5" => Some(VendorInfo("Verbatim", "Japan"))
    case "1bcf" => Some(VendorInfo("Sunplus Innovation Technology", "Taiwan"))
    case "1f75" => Some(VendorInfo("Innostor Technology", "Taiwan"))
    case "8087" => Some(VendorInfo("Intel", "USA"))
    case "045e" => Some(VendorInfo("Microsoft", "USA"))
    case "0409" => Some(VendorInfo("NEC", "Japan"))
    case "03f0" => Some(VendorInfo("Hewlett Packard", "USA"))
    case "0411" => Some(VendorInfo("Buffalo (Melco)", "Japan"))
    case "0424" => Some(VendorInfo("Microchip Technology (SMSC)", "USA"))
    case "04b4" => Some(VendorInfo("Cypress Semiconductor", "USA"))
    case "067b" => Some(VendorInfo("Prolific Technology", "Taiwan"))
    case "0a5c" => Some(VendorInfo("Broadcom", "USA"))
    case "0b05" => Some(VendorInfo("ASUSTek Computer", "Taiwan"))
    case "0c45" => Some(VendorInfo("Microdia", "Taiwan"))
    case "1130" => Some(VendorInfo("Tenx Technology", "Taiwan"))
    case "12d1" => Some(VendorInfo("Huawei Technologies", "China"))
    case "138a" => Some(VendorInfo("Validity Sensors", "USA"))
    case "148f" => Some(VendorInfo("Ralink Technology", "Taiwan"))
    case "17ef" => Some(VendorInfo("Lenovo", "China"))
    case "1908" => Some(VendorInfo("GEMBIRD", "Netherlands"))
    case "19d2" => Some(VendorInfo("ZTE WCDMA Technologies MSM", "China"))
    case "1a40" => Some(VendorInfo("Terminus Technology", "Taiwan"))
    case "1b1c" => Some(VendorInfo("Corsair", "USA"))
    case "2109" => Some(VendorInfo("VIA Labs", "Taiwan"))
    case "2357" => Some(VendorInfo("TP-Link", "China"))
    case "248a" => Some(VendorInfo("Maxxter", "Ukraine"))
    case "2717" => Some(VendorInfo("Xiaomi", "China"))
    case "04e8" => Some(VendorInfo("Samsung Electronics", "South Korea"))
    case "054c" => Some(VendorInfo("Sony", "Japan"))
    case "0bb4" => Some(VendorInfo("HTC (High Tech Computer)", "Taiwan"))
    case "0fce" => Some(VendorInfo("Sony Ericsson Mobile Communications", "Sweden"))
    case "18d1" => Some(VendorInfo("Google", "USA"))
    case "2833" => Some(VendorInfo("Oculus VR", "USA"))
    case "413c" => Some(VendorInfo("Dell Computer", "USA"))
    case _ => None
  }

  /** `get_vendor_from_database`: the table entry of the lower-cased id. */
  function GetVendor(vid: string): Option<VendorInfo> {
    VendorEntry(Lower(vid))
  }

  // ---------------------------------------------------------------- product table

  datatype ProductInfo = ProductInfo(name: string, classCode: string)

  /** `PRODUCTS` of `get_product_from_database`, keyed by the lower-case pair. */
  function ProductEntry(vid: string, pid: string): Option<ProductInfo> {
    match (vid, pid)
    case ("0781", "5567") => Some(ProductInfo("Cruzer Blade", "Mass Storage"))
    case ("0781", "5581") => Some(ProductInfo("Ultra", "Mass Storage"))
    case ("0781", "5583") => Some(ProductInfo("Ultra Fit", "Mass Storage"))
    case ("0951", "1666") => Some(ProductInfo("DataTraveler 100 G3/G4/SE9 G2/50", "Mass Storage"))
    case ("0951", "1667") => Some(ProductInfo("DataTraveler Micro", "Mass Storage"))
    case ("046d", "c52b") => Some(ProductInfo("Unifying Receiver", "HID"))
    case ("046d", "c077") => Some(ProductInfo("Mouse", "HID"))
    case ("046d", "c31c") => Some(ProductInfo("Keyboard K120", "HID"))
    case ("045e", "0745") => Some(ProductInfo("Nano Transceiver", "HID"))
    case ("045e", "07a5") => Some(ProductInfo("Wireless Receiver for Xbox One", "HID"))
    case ("8087", "0a2b") => Some(ProductInfo("Bluetooth wireless interface", "Wireless"))
    case ("8087", "0aa7") => Some(ProductInfo("Wireless-AC", "Network"))
    case ("04e8", "6860") => Some(ProductInfo("Galaxy series", "MTP/ADB"))
    case ("18d1", "4ee1") => Some(ProductInfo("Nexus/Pixel (MTP)", "MTP/ADB"))
    case _ => None
  }

  /** `get_product_from_database`: the table entry of the lower-cased pair. */
  function GetProduct(vid: string, pid: string): Option<ProductInfo> {
    ProductEntry(Lower(vid), Lower(pid))
  }

  // ---------------------------------------------------------------- case folding

  /** Every key of the product table is already lower case. */
  lemma ProductKeysLower(vid: string, pid: string)
    requires ProductEntry(vid, pid).Some?
    ensures Lower(vid) == vid && Lower(pid) == pid
  {
  }

  /** The vendor lookup ignores the case of the id. */
  lemma GetVendorIgnoresCase(a: string, b: string)
    requires Lower(a) == Lower(b)
    ensures GetVendor(a) == GetVendor(b)
  {
  }

  /** An upper-case spelling finds the lower-case key. */
  lemma GetVendorUpperCase()
    ensures GetVendor("046D") == Some(VendorInfo("Logitech", "Switzerland"))
  {
    assert Lower("046D") == "046d";
  }

  /** The product lookup ignores the case of both ids ... */
  lemma GetProductIgnoresCase(vid: string, pid: string, vid': string, pid': string)
    requires Lower(vid) == Lower(vid') && Lower(pid) == Lower(pid')
    ensures GetProduct(vid, pid) == GetProduct(vid', pid')
  {
  }

  /** ... and any spelling of a table pair finds that pair's entry. */
  lemma GetProductFinds(vid: string, pid: string, kv: string, kp: string)
    requires ProductEntry(kv, kp).Some? && Lower(vid) == Lower(kv) && Lower(pid) == Lower(kp)
    ensures GetProduct(vid, pid) == ProductEntry(kv, kp)
  {
    ProductKeysLower(kv, kp);
  }

  /** No product of the table has the class "Unknown". */
  lemma ProductClassesKnown(vid: string, pid: string)
    requires ProductEntry(vid, pid).Some?
    ensures ProductEntry(vid, pid).value.classCode != "Unknown"
  {
  }

  // ---------------------------------------------------------------- security information

  /** The security record; `vulnerabilities` is the key that `dict.update` adds for
      a vulnerable device, next to the `known_vulnerabilities` that stays empty. */
  datatype SecurityInfo = SecurityInfo(
    knownVulnerabilities: seq<string>,
    recalls: seq<string>,
    securityRating: string,
    recommendations: seq<string>,
    vulnerabilities: Option<seq<string>>)

  datatype Vulnerability = Vulnerability(vulnerabilities: seq<string>, securityRating: string,
                                         recommendations: seq<string>)

  /** `vulnerable_devices`, keyed by the lower-case pair. */
  function VulnerableEntry(vid: string, pid: string): Option<Vulnerability> {
    match (vid, pid)
    case ("0781", "5567") =>
      Some(Vulnerability(["Firmware vulnerability (2018)"], "Medium",
                         ["Update firmware", "Scan for BadUSB modifications"]))
    case _ => None
  }

  const DefaultRecommendations: seq<string> := ["Regular firmware updates", "Scan with antivirus"]

  /** What `get_device_security_info` returns: the initial record updated with the
      vulnerability entry of the lower-cased pair, or rated Good with the two default
      recommendations. */
  function SecurityInfoOf(vid: string, pid: string): SecurityInfo {
    var initial := SecurityInfo([], [], "Unknown", [], None);
    match VulnerableEntry(Lower(vid), Lower(pid))
    case Some(v) =>
      initial.(vulnerabilities := Some(v.vulnerabilities), securityRating := v.securityRating,
               recommendations := v.recommendations)
    case None => initial.(securityRating := "Good", recommendations := DefaultRecommendations)
  }

  /** `get_device_security_info`: the record filled in field by field. The
      manufacturer is not consulted. */
  method GetDeviceSecurityInfo(vid: string, pid: string, manufacturer: string) returns (info: SecurityInfo)
    ensures info == SecurityInfoOf(vid, pid)
  {
    info := SecurityInfo([], [], "Unknown", [], None);
    var key := (Lower(vid), Lower(pid));
    var entry := VulnerableEntry(key.0, key.1);
    if entry.Some? {
      var v := entry.value;
      info := info.(vulnerabilities := Some(v.vulnerabilities));
      info := info.(securityRating := v.securityRating);
      info := info.(recommendations := v.recommendations);
    } else {
      info := info.(securityRating := "Good");
      info := info.(recommendations := DefaultRecommendations);
    }
  }

  /** A device is rated Medium, with its vulnerability and two recommendations,
      exactly when its pair spells 0781/5567 in any case; every other device is rated
      Good with the two default recommendations and no vulnerabilities. The list
      `known_vulnerabilities` and the recalls always stay empty. */
  lemma SecurityRating(vid: string, pid: string)
    ensures var r := SecurityInfoOf(vid, pid);
      && r.knownVulnerabilities == [] && r.recalls == []
      && (r.securityRating == "Medium" <==> (Lower(vid), Lower(pid)) == ("0781", "5567"))
      && (r.securityRating == "Medium" ==>
            r.vulnerabilities == Some(["Firmware vulnerability (2018)"])
            && r.recommendations == ["Update firmware", "Scan for BadUSB modifications"])
      && (r.securityRating != "Medium" ==>
            r.securityRating == "Good" && r.vulnerabilities.None?
            && r.recommendations == DefaultRecommendations && |r.recommendations| == 2)
  {
  }

  /** The one vulnerable device is a known product: a SanDisk Cruzer Blade. */
  lemma VulnerableIsKnownProduct(vid: string, pid: string)
    requires SecurityInfoOf(vid, pid).securityRating == "Medium"
    ensures GetProduct(vid, pid) == Some(ProductInfo("Cruzer Blade", "Mass Storage"))
    ensures GetVendor(vid) == Some(VendorInfo("SanDisk", "USA"))
  {
    SecurityRating(vid, pid);
  }

  // ---------------------------------------------------------------- manufacturer site

  /** `vendor_domains`, in insertion order. */
  const VendorDomains: seq<(string, string)> := [
    ("sandisk", "sandisk.com"), ("kingston", "kingston.com"), ("logitech", "logitech.com"),
    ("microsoft", "microsoft.com"), ("dell", "dell.com"), ("hp", "hp.com"),
    ("seagate", "seagate.com"), ("western digital", "wdc.com"), ("intel", "intel.com"),
    ("samsung", "samsung.com"), ("toshiba", "toshiba.com"), ("transcend", "transcend-info.com"),
    ("corsair", "corsair.com"), ("lexar", "lexar.com"), ("verbatim", "verbatim.com")]

  /** The domain of the first entry whose key occurs in `vendorLower`. */
  function FirstDomain(vendorLower: string, ds: seq<(string, string)>): Option<string> {
    if ds == [] then None
    else if Contains(vendorLower, ds[0].0) then Some(ds[0].1)
    else FirstDomain(vendorLower, ds[1..])
  }

  function ProductsUrl(domain: string): string {
    "https://www." + domain + "/products"
  }

  /** `search_manufacturer_site`; the product name is not consulted. */
  function SearchManufacturerSite(vendorName: string, productName: string): Option<string> {
    match FirstDomain(Lower(vendorName), VendorDomains)
    case Some(domain) => Some(ProductsUrl(domain))
    case None => None
  }

  /** The first-match search finds an entry exactly when some key occurs, and then
      it is the domain of the first such key. */
  lemma {:induction false} FirstDomainIff(vendorLower: string, ds: seq<(string, string)>)
    ensures FirstDomain(vendorLower, ds).Some? <==> exists i :: 0 <= i < |ds| && Contains(vendorLower, ds[i].0)
    ensures FirstDomain(vendorLower, ds).Some? ==>
              exists i :: 0 <= i < |ds| && Contains(vendorLower, ds[i].0)
                && (forall j :: 0 <= j < i ==> !Contains(vendorLower, ds[j].0))
                && FirstDomain(vendorLower, ds).value == ds[i].1
  {
    if ds != [] && !Contains(vendorLower, ds[0].0) {
      FirstDomainIff(vendorLower, ds[1..]);
      if FirstDomain(vendorLower, ds).Some? {
        var i :| 0 <= i < |ds[1..]| && Contains(vendorLower, ds[1..][i].0)
                 && (forall j :: 0 <= j < i ==> !Contains(vendorLower, ds[1..][j].0))
                 && FirstDomain(vendorLower, ds[1..]).value == ds[1..][i].1;
        assert forall j :: 0 <= j < i + 1 ==> !Contains(vendorLower, ds[j].0) by {
          forall j | 0 <= j < i + 1 ensures !Contains(vendorLower, ds[j].0) {
            if j > 0 {
              assert ds[j] == ds[1..][j - 1];
            }
          }
        }
      } else {
        forall i | 0 <= i < |ds| ensures !Contains(vendorLower, ds[i].0) {
          if i > 0 {
            assert ds[i] == ds[1..][i - 1];
          }
        }
      }
    }
  }

  /** The manufacturer page is `https://www.{domain}/products` for the first key of
      the domain table, in order, that occurs in the lower-cased vendor name, and
      there is none when no key occurs. */
  lemma ManufacturerSiteFirstKey(vendorName: string, productName: string)
    ensures var r := SearchManufacturerSite(vendorName, productName);
      && (r.Some? <==> exists i :: 0 <= i < |VendorDomains| && Contains(Lower(vendorName), VendorDomains[i].0))
      && (r.Some? ==>
            exists i :: 0 <= i < |VendorDomains| && Contains(Lower(vendorName), VendorDomains[i].0)
              && (forall j :: 0 <= j < i ==> !Contains(Lower(vendorName), VendorDomains[j].0))
              && r.value == "https://www." + VendorDomains[i].1 + "/products")
  {
    FirstDomainIff(Lower(vendorName), VendorDomains);
  }

  /** The guess ignores the case of the vendor name. */
  lemma ManufacturerSiteIgnoresCase(vendorName: string, productName: string)
    ensures SearchManufacturerSite(Lower(vendorName), productName) == SearchManufacturerSite(vendorName, productName)
  {
    LowerIdempotent(vendorName);
  }

  // ---------------------------------------------------------------- images and web search

  /** `search_for_images`: three placeholder URLs built from the query. */
  function SearchForImages(query: string): seq<string> {
    ["https://www.deviceimages.com/search/" + Quote(query),
     "https://images.usbid.org/" + ReplaceChar(query, ' ', '_') + ".jpg",
     "https://www.usb.org/sites/default/files/products/" + ReplaceChar(query, ' ', '_') + ".png"]
  }

  lemma {:induction false} QuoteHasNoSpace(s: string)
    ensures ' ' !in Quote(s)
  {
    if s != [] {
      QuoteHasNoSpace(s[1..]);
      if !QuoteSafe(s[0]) {
        PercentEncodeHasNoSpace(Utf8(s[0]));
      }
    }
  }

  lemma {:induction false} PercentEncodeHasNoSpace(b: seq<byte>)
    ensures ' ' !in PercentEncode(b)
  {
    if b != [] {
      PercentEncodeHasNoSpace(b[1..]);
    }
  }

  /** There are always exactly three image URLs, none of them containing a space:
      the search URL percent-encodes the query, the two file URLs replace its spaces
      by underscores. */
  lemma ImageUrls(query: string)
    ensures |SearchForImages(query)| == 3
    ensures forall u :: u in SearchForImages(query) ==> ' ' !in u
  {
    var file := ReplaceChar(query, ' ', '_');
    QuoteHasNoSpace(query);
    assert forall i :: 0 <= i < |file| ==> file[i] != ' ';
    NoSpaceConcat("https://www.deviceimages.com/search/", Quote(query));
    NoSpaceConcat("https://images.usbid.org/", file);
    NoSpaceConcat("https://images.usbid.org/" + file, ".jpg");
    NoSpaceConcat("https://www.usb.org/sites/default/files/products/", file);
    NoSpaceConcat("https://www.usb.org/sites/default/files/products/" + file, ".png");
  }

  lemma NoSpaceConcat(a: string, b: string)
    requires (forall i :: 0 <= i < |a| ==> a[i] != ' ') && ' ' !in b
    ensures ' ' !in a + b
  {
    assert forall i :: 0 <= i < |a + b| ==> (a + b)[i] == if i < |a| then a[i] else b[i - |a|];
  }

  datatype WebSearch = WebSearch(
    specifications: map<string, string>,
    imageUrls: seq<string>,
    productPage: Option<string>,
    reviews: seq<string>,
    manuals: seq<string>)

  /** `search_web_for_device`: at most five image URLs for "{vendor} {product} USB
      device" and the manufacturer page when there is one. */
  function SearchWebForDevice(vendorName: string, productName: string, vid: string, pid: string): (r: WebSearch)
    ensures |r.imageUrls| <= 5
  {
    var imageUrls := SearchForImages(vendorName + " " + productName + " USB device");
    var page := SearchManufacturerSite(vendorName, productName);
    WebSearch(map[], if imageUrls != [] then imageUrls[..Min(5, |imageUrls|)] else [],
              if Truthy(page) then page else None, [], [])
  }

  /** The cut at five never applies: the result holds the three image URLs and the
      manufacturer page, and the specification, review and manual fields stay empty. */
  lemma WebSearchResult(vendorName: string, productName: string, vid: string, pid: string)
    ensures var r := SearchWebForDevice(vendorName, productName, vid, pid);
      && r.imageUrls == SearchForImages(vendorName + " " + productName + " USB device")
      && |r.imageUrls| == 3
      && r.productPage == SearchManufacturerSite(vendorName, productName)
      && r.specifications == map[] && r.reviews == [] && r.manuals == []
  {
  }

  // ---------------------------------------------------------------- USB ID query

  /** The result of `query_usb_ids_database`; `country` is `None` where the source
      leaves the key out. */
  datatype UsbIdsResult = UsbIdsResult(
    vendorName: Option<string>,
    productName: Option<string>,
    deviceClass: Option<string>,
    subclass: Option<string>,
    protocol: Option<string>,
    country: Option<string>)

  /** `query_usb_ids_database`: the vendor entry, and the product entry when a
      non-empty product id is given. */
  function QueryUsbIdsDatabase(vid: string, pid: Option<string>): UsbIdsResult {
    var vendor := GetVendor(vid);
    var product := if Truthy(pid) then GetProduct(vid, pid.value) else None;
    UsbIdsResult(
      if vendor.Some? then Some(vendor.value.name) else None,
      if product.Some? then Some(product.value.name) else None,
      if product.Some? then Some(product.value.classCode) else None,
      None, None,
      if vendor.Some? then Some(vendor.value.country) else None)
  }

  /** The vendor fields are set exactly for a vendor of the table, the product fields
      exactly for a non-empty product id of a known pair, and the subclass and
      protocol never. */
  lemma UsbIdsFields(vid: string, pid: Option<string>)
    ensures var r := QueryUsbIdsDatabase(vid, pid);
      && (r.vendorName.Some? <==> GetVendor(vid).Some?)
      && (r.country.Some? <==> GetVendor(vid).Some?)
      && (r.productName.Some? <==> Truthy(pid) && GetProduct(vid, pid.value).Some?)
      && (r.deviceClass.Some? <==> r.productName.Some?)
      && r.subclass.None? && r.protocol.None?
  {
  }

  // ---------------------------------------------------------------- comprehensive information

  datatype TechnicalSpecs = TechnicalSpecs(vendorId: string, productId: string, manufacturer: string,
                                           productName: string, deviceClass: string)

  /** The record of `get_comprehensive_device_info` without its fetch time; an
      empty `vendor_info` or `product_info` is `None`. */
  datatype DeviceInfo = DeviceInfo(
    vid: string,
    pid: string,
    vendorInfo: Option<VendorInfo>,
    productInfo: Option<ProductInfo>,
    webSearch: WebSearch,
    securityInfo: SecurityInfo,
    technicalSpecs: TechnicalSpecs)

  function VendorNameOf(vendor: Option<VendorInfo>): string {
    if vendor.Some? then vendor.value.name else "Unknown"
  }

  function ProductNameOf(product: Option<ProductInfo>, deviceName: string): string {
    if product.Some? then product.value.name else if deviceName != "" then deviceName else "Unknown Device"
  }

  function DeviceInfoOf(vid: string, pid: string, deviceName: string): DeviceInfo {
    var vendor := GetVendor(vid);
    var product := GetProduct(vid, pid);
    var vendorName := VendorNameOf(vendor);
    var productName := ProductNameOf(product, deviceName);
    DeviceInfo(vid, pid, vendor, product,
               SearchWebForDevice(vendorName, productName, vid, pid),
               SecurityInfoOf(vid, pid),
               TechnicalSpecs(vid, pid, vendorName, productName,
                              if product.Some? then product.value.classCode else "Unknown"))
  }

  /** `get_comprehensive_device_info`: the record filled in part by part. */
  method GetComprehensiveDeviceInfo(vid: string, pid: string, deviceName: string) returns (r: DeviceInfo)
    ensures r == DeviceInfoOf(vid, pid, deviceName)
  {
    r := DeviceInfo(vid, pid, None, None, WebSearch(map[], [], None, [], []),
                    SecurityInfo([], [], "", [], None), TechnicalSpecs("", "", "", "", ""));
    var vendorInfo := GetVendor(vid);
    var vendorName;
    if vendorInfo.Some? {
      r := r.(vendorInfo := vendorInfo);
      vendorName := vendorInfo.value.name;
    } else {
      vendorName := "Unknown";
    }
    var productInfo := GetProduct(vid, pid);
    var productName;
    if productInfo.Some? {
      r := r.(productInfo := productInfo);
      productName := productInfo.value.name;
    } else {
      productName := if deviceName != "" then deviceName else "Unknown Device";
    }
    r := r.(webSearch := SearchWebForDevice(vendorName, productName, vid, pid));
    var securityInfo := GetDeviceSecurityInfo(vid, pid, vendorName);
    r := r.(securityInfo := securityInfo);
    r := r.(technicalSpecs := TechnicalSpecs(vid, pid, vendorName, productName,
                                             if productInfo.Some? then productInfo.value.classCode else "Unknown"));
  }

  /** The fall-backs: the manufacturer is the table vendor's name or "Unknown"; the
      product name is the table product's name, else the given device name, else
      "Unknown Device"; the class is the table product's, and "Unknown" exactly when
      the pair is not in the table. */
  lemma DeviceInfoFallbacks(vid: string, pid: string, deviceName: string)
    ensures var r := DeviceInfoOf(vid, pid, deviceName);
      && r.vid == vid && r.pid == pid
      && r.technicalSpecs.vendorId == vid && r.technicalSpecs.productId == pid
      && (GetVendor(vid).Some? ==> r.technicalSpecs.manufacturer == GetVendor(vid).value.name)
      && (GetVendor(vid).None? ==> r.vendorInfo.None? && r.technicalSpecs.manufacturer == "Unknown")
      && (GetProduct(vid, pid).Some? ==> r.technicalSpecs.productName == GetProduct(vid, pid).value.name)
      && (GetProduct(vid, pid).None? && deviceName != "" ==> r.technicalSpecs.productName == deviceName)
      && (GetProduct(vid, pid).None? && deviceName == "" ==> r.technicalSpecs.productName == "Unknown Device")
      && (r.technicalSpecs.deviceClass == "Unknown" <==> GetProduct(vid, pid).None?)
      && (r.productInfo.Some? ==> r.technicalSpecs.deviceClass == r.productInfo.value.classCode)
  {
    if GetProduct(vid, pid).Some? {
      ProductClassesKnown(Lower(vid), Lower(pid));
    }
  }

  /** The parts agree: the stored vendor and product entries are the lookups', the
      security record is that of the pair, and the web search runs on the names the
      specifications report. */
  lemma DeviceInfoParts(vid: string, pid: string, deviceName: string)
    ensures var r := DeviceInfoOf(vid, pid, deviceName);
      && r.vendorInfo == GetVendor(vid) && r.productInfo == GetProduct(vid, pid)
      && r.securityInfo == SecurityInfoOf(vid, pid)
      && r.webSearch == SearchWebForDevice(r.technicalSpecs.manufacturer, r.technicalSpecs.productName, vid, pid)
      && |r.webSearch.imageUrls| == 3
  {
    var r := DeviceInfoOf(vid, pid, deviceName);
    WebSearchResult(r.technicalSpecs.manufacturer, r.technicalSpecs.productName, vid, pid);
  }

  /** A Cruzer Blade id pair in any case is reported as SanDisk's, rated Medium. */
  lemma CruzerBladeScenario(vid: string, pid: string, deviceName: string)
    requires Lower(vid) == "0781" && Lower(pid) == "5567"
    ensures var r := DeviceInfoOf(vid, pid, deviceName);
      && r.technicalSpecs.manufacturer == "SanDisk"
      && r.technicalSpecs.productName == "Cruzer Blade"
      && r.technicalSpecs.deviceClass == "Mass Storage"
      && r.securityInfo.securityRating == "Medium"
  {
    assert GetVendor(vid) == Some(VendorInfo("SanDisk", "USA"));
    assert GetProduct(vid, pid) == Some(ProductInfo("Cruzer Blade", "Mass Storage"));
    DeviceInfoFallbacks(vid, pid, deviceName);
    DeviceInfoParts(vid, pid, deviceName);
    SecurityRating(vid, pid);
  }
}
