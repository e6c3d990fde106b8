/** The product form: up to five product images seeded from the server in
    edit mode, removals of server images recorded in `deletedImages`, and
    the multipart payload sent on save. */
module ProductForm {

  import opened Wrappers
  import opened Upload
  import Strings
  import Json

  /** The most images a product may have. */
  const MaxImages: nat := 5

  /** The form's `modalType`; any value other than "edit" behaves as `AddMode`. */
  datatype ModalType = AddMode | EditMode

  /** The parts of a product the form reads besides its scalar fields. */
  datatype Product = Product(id: string, images: seq<string>)

  /** What `form.validateFields()` resolves to, each value as `FormData` stores it. */
  datatype ProductValues = ProductValues(
    name: string, discountPrice: string, description: string,
    categoryId: string, salePrice: string, stockCount: string)

  /** What `beforeUpload` returns: drop the batch, or keep it without uploading. */
  datatype BeforeUploadResult = ListIgnore | KeepWithoutUpload

  /** The mutation `handleSave` issues. */
  datatype Request =
    | CreateProduct(data: FormData)
    | EditProduct(productId: string, data: FormData)
  {
    function Data(): FormData {
      match this
      case CreateProduct(d) => d
      case EditProduct(_, d) => d
    }
  }

  /** The list edit mode shows: one entry per server image, numbered by position. */
  function SeedEntries(images: seq<string>): (r: seq<Entry>)
    ensures |r| == |images|
    ensures forall i :: 0 <= i < |images| ==>
      r[i].url == Some(images[i]) && r[i].file.None? && !r[i].isExisting
  {
    seq(|images|, i requires 0 <= i < |images| =>
      Entry(Num(i), "image-" + Strings.NatToString(i), Some(images[i]), None, false))
  }

  /** The server URLs of a list's entries, in order. */
  function Urls(list: seq<Entry>): seq<Option<string>> {
    seq(|list|, i requires 0 <= i < |list| => list[i].url)
  }

  /** Seeding yields one entry per server image, in server order, each with
      its URL, named `image-<position>`, and none carrying a new file, so a
      seeded list attaches no image. */
  lemma SeedEntriesFaithful(images: seq<string>)
    ensures Urls(SeedEntries(images)) == seq(|images|, i requires 0 <= i < |images| => Some(images[i]))
    ensures forall i :: 0 <= i < |images| ==> SeedEntries(images)[i].name == "image-" + Strings.NatToString(i)
    ensures NewFiles(SeedEntries(images)) == []
    ensures forall i, j :: 0 <= i < j < |images| ==> SeedEntries(images)[i].uid != SeedEntries(images)[j].uid
  {
    NewFilesOfSeeded(SeedEntries(images));
  }

  /** The scalar fields, in the order `handleSave` appends them. */
  function ScalarFields(v: ProductValues): FormData {
    [ Field("name", Text(v.name)),
      Field("discountPrice", Text(v.discountPrice)),
      Field("description", Text(v.description)),
      Field("category", Text(v.categoryId)),
      Field("price", Text(v.salePrice)),
      Field("stockCount", Text(v.stockCount)) ]
  }

  /** The payload `handleSave` assembles. */
  function ProductPayload(v: ProductValues, fileList: seq<Entry>, deleted: seq<string>): (fd: FormData)
    ensures |fd| == 7 + |NewFiles(fileList)|
    ensures fd[|fd| - 1] == Field("deletedImages", Text(Json.StringArray(deleted)))
  {
    ScalarFields(v) + FileParts("productImage", fileList)
      + [Field("deletedImages", Text(Json.StringArray(deleted)))]
  }

  /** What the receiver reads from the payload: the scalar fields first,
      under their wire names; then exactly the newly picked files, in list
      order; and, always last, the deletion list, which parses back to
      exactly `deleted` (also when it is empty). */
  lemma ProductPayloadReadsBack(v: ProductValues, fileList: seq<Entry>, deleted: seq<string>)
    ensures var fd := ProductPayload(v, fileList, deleted);
      |fd| == 7 + |NewFiles(fileList)| &&
      fd[..6] == [ Field("name", Text(v.name)), Field("discountPrice", Text(v.discountPrice)),
                   Field("description", Text(v.description)), Field("category", Text(v.categoryId)),
                   Field("price", Text(v.salePrice)), Field("stockCount", Text(v.stockCount)) ] &&
      BlobsUnder(fd, "productImage") == NewFiles(fileList) &&
      BlobsUnder(fd, "deletedImages") == [] &&
      fd[|fd| - 1].key == "deletedImages" &&
      Json.ParseStringArray(fd[|fd| - 1].part.text) == Some(deleted)
  {
    var fd := ProductPayload(v, fileList, deleted);
    var last := [Field("deletedImages", Text(Json.StringArray(deleted)))];
    var files := FileParts("productImage", fileList);
    assert fd[..6] == ScalarFields(v);
    BlobsUnderAppend(ScalarFields(v) + files, last, "productImage");
    BlobsUnderAppend(ScalarFields(v), files, "productImage");
    BlobsUnderAppend(ScalarFields(v) + files, last, "deletedImages");
    BlobsUnderAppend(ScalarFields(v), files, "deletedImages");
    BlobsUnderBlobs("productImage", "deletedImages", NewFiles(fileList));
    BlobsUnderTexts(last, "productImage");
    BlobsUnderTexts(last, "deletedImages");
    BlobsUnderTexts(ScalarFields(v), "productImage");
    BlobsUnderTexts(ScalarFields(v), "deletedImages");
    Json.StringArrayRoundTrip(deleted);
  }

  /** The state of the form and of the parent's list it edits. */
  class ProductFormState {
    var fileList: seq<Entry>
    var deletedImages: seq<string>
    var uploading: bool
    var modalVisible: bool
    /** Every server URL seeded since deletions were last cleared. */
    ghost var seededUrls: seq<string>

    /** Removals record only server URLs that were seeded into the list. */
    ghost predicate Valid()
      reads this
    {
      (forall e :: e in fileList && e.url.Some? ==> e.url.value in seededUrls) &&
      (forall u :: u in deletedImages ==> u in seededUrls)
    }

    constructor ()
      ensures Valid()
      ensures fileList == [] && deletedImages == [] && !uploading && !modalVisible
      ensures seededUrls == []
    {
      fileList, deletedImages := [], [];
      uploading, modalVisible := false, false;
      seededUrls := [];
    }

    /** The effect run when the modal type or the product changes. Edit
        mode lists the server images and keeps `deletedImages` as it was;
        otherwise both lists are emptied. */
    method Seed(modalType: ModalType, editingProduct: Option<Product>)
      requires Valid()
      modifies this
      ensures Valid()
      ensures modalType == EditMode && editingProduct.Some? ==>
        fileList == SeedEntries(editingProduct.value.images) && deletedImages == old(deletedImages)
      ensures !(modalType == EditMode && editingProduct.Some?) ==> fileList == [] && deletedImages == []
      ensures seededUrls ==
        if modalType == EditMode && editingProduct.Some? then old(seededUrls) + editingProduct.value.images else []
      ensures uploading == old(uploading) && modalVisible == old(modalVisible)
    {
      if modalType == EditMode && editingProduct.Some? {
        var images := editingProduct.value.images;
        seededUrls := seededUrls + images;
        fileList := SeedEntries(images);
        forall e | e in fileList && e.url.Some?
          ensures e.url.value in seededUrls
        {
          var i :| 0 <= i < |fileList| && fileList[i] == e;
          assert e.url.value == images[i];
        }
      } else {
        fileList, deletedImages := [], [];
        seededUrls := [];
      }
    }

    /** `Upload.onChange`: a list of more than five entries is refused and
        the old list kept; any other list replaces it. The widget never
        invents server URLs: an entry with a URL comes from the old list. */
    method OnChange(newList: seq<Entry>)
      requires Valid()
      requires forall e :: e in newList && e.url.Some? ==> e in fileList
      modifies this
      ensures Valid()
      ensures fileList == if |newList| > MaxImages then old(fileList) else newList
      ensures deletedImages == old(deletedImages) && seededUrls == old(seededUrls)
      ensures uploading == old(uploading) && modalVisible == old(modalVisible)
    {
      if |newList| > MaxImages {
        return;
      }
      fileList := newList;
    }

    /** `Upload.onRemove`: removing an entry with a (non-empty) URL records
        that URL; removing a newly picked file records nothing. */
    method OnRemove(file: Entry)
      requires Valid()
      requires file in fileList
      modifies this
      ensures Valid()
      ensures deletedImages ==
        if file.url.Some? && file.url.value != "" then old(deletedImages) + [file.url.value]
        else old(deletedImages)
      ensures fileList == old(fileList) && seededUrls == old(seededUrls)
      ensures uploading == old(uploading) && modalVisible == old(modalVisible)
    {
      if file.url.Some? && file.url.value != "" {
        deletedImages := deletedImages + [file.url.value];
      }
    }

    /** `Upload.beforeUpload`: a batch that would take the list past five
        images is dropped; a kept batch is never uploaded automatically. */
    method BeforeUpload(batch: seq<Entry>) returns (r: BeforeUploadResult)
      ensures r == ListIgnore <==> |fileList| + |batch| > MaxImages
    {
      if |fileList| + |batch| > MaxImages {
        return ListIgnore;
      }
      return KeepWithoutUpload;
    }

    /** The `FormData` built inside `handleSave`. */
    method Payload(v: ProductValues) returns (fd: FormData)
      ensures fd == ProductPayload(v, fileList, deletedImages)
    {
      fd := [];
      fd := fd + [Field("name", Text(v.name))];
      fd := fd + [Field("discountPrice", Text(v.discountPrice))];
      fd := fd + [Field("description", Text(v.description))];
      fd := fd + [Field("category", Text(v.categoryId))];
      fd := fd + [Field("price", Text(v.salePrice))];
      fd := fd + [Field("stockCount", Text(v.stockCount))];
      fd := AppendNewFiles(fd, "productImage", fileList);
      fd := fd + [Field("deletedImages", Text(Json.StringArray(deletedImages)))];
    }

    /** `handleSave`. `values` is what validation resolved to (`None` when
        it rejected) and `serverOk` how the mutation ended. Edit mode with a
        product sends an edit, anything else a create; only a successful
        create clears the lists, and `uploading` is false at the end. */
    method HandleSave(modalType: ModalType, editingProduct: Option<Product>,
                      values: Option<ProductValues>, serverOk: bool)
      returns (req: Option<Request>)
      requires Valid()
      modifies this
      ensures Valid()
      ensures req.Some? <==> values.Some?
      ensures req.Some? ==> req.value.Data() == ProductPayload(values.value, old(fileList), old(deletedImages))
      ensures req.Some? ==> (req.value.EditProduct? <==> modalType == EditMode && editingProduct.Some?)
      ensures req.Some? && req.value.EditProduct? ==> req.value.productId == editingProduct.value.id
      ensures modalVisible == if req.Some? && serverOk then false else old(modalVisible)
      ensures if req.Some? && req.value.CreateProduct? && serverOk
              then fileList == [] && deletedImages == []
              else fileList == old(fileList) && deletedImages == old(deletedImages)
      ensures seededUrls == if req.Some? && req.value.CreateProduct? && serverOk then [] else old(seededUrls)
      ensures !uploading
    {
      if values.None? {
        uploading := false;
        return None;
      }
      var fd := Payload(values.value);
      uploading := true;
      if modalType == EditMode && editingProduct.Some? {
        req := Some(EditProduct(editingProduct.value.id, fd));
        if serverOk {
          modalVisible := false;
        }
        uploading := false;
      } else {
        req := Some(CreateProduct(fd));
        if serverOk {
          fileList, deletedImages := [], [];
          seededUrls := [];
          modalVisible := false;
        }
        uploading := false;
      }
    }
  }

  /** The payload of two seeded entries and one picked file `d`, with
      deletions `[b]`: one image part, for `d`, and the deletion list last. */
  lemma KeptPayload(v: ProductValues, kept: seq<Entry>, d: FileId, b: string)
    requires |kept| == 3 && kept[0].file.None? && kept[1].file.None? && kept[2].file == Some(d)
    ensures var fd := ProductPayload(v, kept, [b]);
      BlobsUnder(fd, "productImage") == [d] &&
      fd[|fd| - 1] == Field("deletedImages", Text(Json.StringArray([b])))
  {
    ProductPayloadReadsBack(v, kept, [b]);
    assert kept[1..][1..] == kept[2..] && kept[2..][1..] == [];
    assert NewFiles(kept[2..]) == [d];
    assert NewFiles(kept[1..]) == [d];
    assert NewFiles(kept) == [d];
  }

  /** Seed with server images a, b, c; remove b; pick a new file d. The
      payload carries one image part, for d, and the deletion list [b]
      (a non-empty URL). */
  method ScenarioRemoveAndAdd(v: ProductValues, a: string, b: string, c: string, d: FileId) returns (fd: FormData)
    requires b != ""
    ensures BlobsUnder(fd, "productImage") == [d]
    ensures fd[|fd| - 1] == Field("deletedImages", Text(Json.StringArray([b])))
  {
    var form := new ProductFormState();
    form.Seed(EditMode, Some(Product("p1", [a, b, c])));
    var seeded := form.fileList;
    assert |seeded| == 3 && seeded[1].url == Some(b);
    form.OnRemove(seeded[1]);
    assert form.deletedImages == [b];
    var picked := Entry(Str("rc-upload-1"), "d.png", None, Some(d), false);
    var kept := [seeded[0], seeded[2], picked];
    form.OnChange(kept);
    fd := form.Payload(v);
    KeptPayload(v, kept, d, b);
  }
}
