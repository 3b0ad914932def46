/** How values one part of the system writes are read by another: the
    `", "`-join of add_product against the split-on-comma readers of the
    product cards, the detail page and the vendor's product table, and the
    category id a storefront filter button sends against the backend's
    category lookup. */
module DataFlow {
  import opened Js
  import opened Text
  import Backend
  import Storefront
  import VendorPanel

  /** A join of names the first of which is not empty is not empty. */
  lemma JoinNotEmpty(names: seq<string>, sep: string)
    requires |names| >= 1 && names[0] != ""
    ensures Join(names, sep) != ""
  {
    if |names| > 1 {
      assert Join(names, sep) == names[0] + sep + Join(names[1..], sep);
      assert |Join(names, sep)| >= |names[0]|;
    }
  }

  /** A product saved with images shows its first stored name on its card. */
  lemma CardShowsFirstStoredImage(names: seq<string>)
    requires |names| >= 1 && names[0] != ""
    requires forall i :: 0 <= i < |names| ==> IsListSafe(names[i])
    ensures Storefront.CardImage(Some(Backend.ImageField(names))) == Storefront.UploadsBase + names[0]
  {
    JoinNotEmpty(names, ", ");
    assert IsListSafe(names[0]);
    FirstSegmentOfJoin(names);
    TrimTrimmed(names[0]);
  }

  /** A product saved without a kept upload has the empty image field, and
      its card shows the placeholder. */
  lemma NoUploadShowsPlaceholder(uploads: seq<Backend.Upload>)
    requires forall i :: 0 <= i < |uploads| ==> uploads[i].file.filename == ""
    ensures Backend.ImageField(Backend.StoredNames(uploads)) == ""
    ensures Storefront.CardImage(Some(Backend.ImageField(Backend.StoredNames(uploads)))) == Storefront.CardPlaceholder
  {
    Backend.StoredNamesEmpty(uploads);
  }

  /** The detail page shows every stored image, in upload order, and the
      prev/next controls exactly when more than one was stored. */
  lemma DetailShowsEveryStoredImage(id: int, name: string, names: seq<string>)
    requires |names| >= 1
    requires forall i :: 0 <= i < |names| ==> IsListSafe(names[i])
    ensures var v := Storefront.DetailOf(Some(Storefront.ProductView(id, name, Some(Backend.ImageField(names)))));
            && v.Detail?
            && |v.slides| == |names|
            && (forall i :: 0 <= i < |names| ==> v.slides[i].imageUrl == Storefront.UploadsBase + names[i])
            && (v.controls <==> |names| > 1)
  {
    var field := Backend.ImageField(names);
    var segs := Split(field, ',');
    assert TrimAll(segs) == names;
    var slides := Storefront.DetailSlides(field);
    assert |slides| == |names|;
    forall i | 0 <= i < |names|
      ensures slides[i].imageUrl == Storefront.UploadsBase + names[i]
    {
      assert Trim(segs[i]) == TrimAll(segs)[i];
    }
  }

  /** The vendor's product table shows the same first image as the
      storefront card, even though it does not trim. */
  lemma VendorRowAgreesWithCard(names: seq<string>)
    requires |names| >= 1 && names[0] != ""
    requires forall i :: 0 <= i < |names| ==> IsListSafe(names[i])
    ensures VendorPanel.RowImage(Backend.ImageField(names)) == Storefront.CardImage(Some(Backend.ImageField(names)))
  {
    CardShowsFirstStoredImage(names);
    assert IsListSafe(names[0]);
    FirstSegmentOfJoin(names);
    assert VendorPanel.UploadsBase == Storefront.UploadsBase;
  }

  /** The vendor form sends exactly the selected files under `images`; those
      are the files add_product stores, so a kept file's name comes first on
      the card when the first selected file is kept. */
  lemma VendorFormFilesAreStored(name: string, description: string, price: string, quantity: string,
                                 files: seq<File>, form: seq<FormEntry>, uploads: seq<Backend.Upload>)
    requires |form| == 4 + |files|
    requires form[..4] == VendorPanel.TextFields(name, description, price, quantity)
    requires forall i :: 0 <= i < |files| ==> form[4 + i] == FileEntry("images", files[i])
    requires |uploads| == |FilesUnder(form, "images")|
    requires forall i :: 0 <= i < |uploads| ==> uploads[i].file == FilesUnder(form, "images")[i]
    requires |files| >= 1 && files[0].filename != ""
    ensures Backend.StoredNames(uploads) != []
    ensures Backend.StoredNames(uploads)[0] == Backend.StoredName(uploads[0])
  {
    VendorPanel.ProductFormFields(name, description, price, quantity, files, form);
    assert uploads[0].file == files[0];
    Backend.StoredNamesInOrder(uploads, 0);
    assert uploads[..0] == [];
  }

  /** The card of a product saved from safe uploads, the first of which
      was kept, shows that upload's stored name. */
  lemma CardShowsFirstUpload(uploads: seq<Backend.Upload>)
    requires |uploads| >= 1 && uploads[0].file.filename != ""
    requires forall i :: 0 <= i < |uploads| ==> Backend.SafeUpload(uploads[i])
    ensures Storefront.CardImage(Some(Backend.ImageField(Backend.StoredNames(uploads)))) ==
            Storefront.UploadsBase + Backend.StoredName(uploads[0])
  {
    var names := Backend.StoredNames(uploads);
    Backend.StoredNamesInOrder(uploads, 0);
    assert uploads[..0] == [];
    Backend.StoredNamesListSafe(uploads);
    assert names[0] != "" by {
      assert |names[0]| >= |uploads[0].uuid| > 0;
    }
    CardShowsFirstStoredImage(names);
  }

  /** The detail page of a product saved from safe uploads shows one slide
      per kept upload, in upload order. */
  lemma DetailShowsEveryUpload(id: int, name: string, uploads: seq<Backend.Upload>)
    requires exists i :: 0 <= i < |uploads| && uploads[i].file.filename != ""
    requires forall i :: 0 <= i < |uploads| ==> Backend.SafeUpload(uploads[i])
    ensures var names := Backend.StoredNames(uploads);
            var v := Storefront.DetailOf(Some(Storefront.ProductView(id, name, Some(Backend.ImageField(names)))));
            && v.Detail?
            && |v.slides| == |names|
            && (forall i :: 0 <= i < |names| ==> v.slides[i].imageUrl == Storefront.UploadsBase + names[i])
  {
    var names := Backend.StoredNames(uploads);
    Backend.StoredNamesEmpty(uploads);
    Backend.StoredNamesListSafe(uploads);
    DetailShowsEveryStoredImage(id, name, names);
  }

  /** `${id}` read back as sqlite's INTEGER gives the same id. */
  lemma {:induction false} DecimalRoundTrip(n: nat)
    ensures Backend.CategoryIdValue(Storefront.DecimalText(n)) == Some(n)
  {
    var s := Storefront.DecimalText(n);
    assert Backend.DecimalValue(s) == n by {
      DecimalValueOfText(n);
    }
  }

  lemma {:induction false} DecimalValueOfText(n: nat)
    ensures Backend.DecimalValue(Storefront.DecimalText(n)) == n
  {
    var s := Storefront.DecimalText(n);
    var d := [(('0' as int) + n % 10) as char];
    if n < 10 {
      assert s == d;
    } else {
      DecimalValueOfText(n / 10);
      assert s == Storefront.DecimalText(n / 10) + d;
      assert s[..|s| - 1] == Storefront.DecimalText(n / 10);
    }
  }

  /** A category button's click sends the category's own id, and the
      backend's lookup finds that category and filters on its name. */
  lemma CategoryButtonSelectsItsCategory(db: Backend.Database, id: nat, sort: Option<string>)
    requires id in db.categories
    ensures var idText := Storefront.KeyText(Storefront.CategoryKey(id));
            && db.LookupCategory(idText) == Some(db.categories[id])
            && db.FilterName(Backend.ListingArgs(Some(idText), sort, None, None)) == Some(db.categories[id].name)
  {
    var idText := Storefront.KeyText(Storefront.CategoryKey(id));
    DecimalRoundTrip(id);
    assert idText != "all" by {
      assert '0' <= idText[0] <= '9';
    }
  }
}
