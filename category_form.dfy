/** The category form: a single image slot seeded from the category in
    edit mode; on save, the slot's first entry, if newly picked, goes
    through the image compressor before it is attached. */
module CategoryForm {

  import opened Wrappers
  import opened Upload

  /** The options passed to the compressor. */
  datatype CompressionOptions = CompressionOptions(maxSizeMB: int, maxWidthOrHeight: int)

  /** The limits the category form asks for: 1 MB and 1920 pixels. */
  const CategoryCompression: CompressionOptions := CompressionOptions(1, 1920)

  /** A category as listed by the server. */
  datatype Category = Category(id: string, name: string, description: string, image: Option<string>)

  /** What `form.validateFields()` resolves to. */
  datatype CategoryValues = CategoryValues(name: string, description: string)

  /** The mutation `handleSave` issues. */
  datatype Request =
    | CreateCategory(data: FormData)
    | EditCategory(categoryId: string, data: FormData)
  {
    function Data(): FormData {
      match this
      case CreateCategory(d) => d
      case EditCategory(_, d) => d
    }
  }

  /** The entry standing for the category's current image. */
  function SeedEntry(image: Option<string>): (e: Entry)
    ensures e.url == image && e.file.None?
    ensures FirstNewFile([e]) == None
  {
    Entry(Str("1"), "image", image, None, false)
  }

  /** The payload: name, description, then the compressed image if any. */
  function CategoryPayload(v: CategoryValues, compressed: Option<FileId>): (fd: FormData)
    ensures |fd| == if compressed.Some? then 3 else 2
  {
    [Field("name", Text(v.name)), Field("description", Text(v.description))]
      + (if compressed.Some? then [Field("categoryImage", Blob(compressed.value))] else [])
  }

  /** Name and description always come first; a `categoryImage` part is
      present exactly when a compressed image is, and it is that image. */
  lemma CategoryPayloadReadsBack(v: CategoryValues, compressed: Option<FileId>)
    ensures var fd := CategoryPayload(v, compressed);
      fd[..2] == [Field("name", Text(v.name)), Field("description", Text(v.description))]
    ensures BlobsUnder(CategoryPayload(v, compressed), "categoryImage") ==
      (if compressed.Some? then [compressed.value] else [])
    ensures "categoryImage" in Keys(CategoryPayload(v, compressed)) <==> compressed.Some?
  {
    var fd := CategoryPayload(v, compressed);
    var head := [Field("name", Text(v.name)), Field("description", Text(v.description))];
    var img: FormData := if compressed.Some? then [Field("categoryImage", Blob(compressed.value))] else [];
    assert fd == head + img;
    BlobsUnderTexts(head, "categoryImage");
    BlobsUnderAppend(head, img, "categoryImage");
    if compressed.Some? {
      assert img[1..] == [];
      assert Keys(fd)[2] == "categoryImage";
    } else {
      assert fd == head;
    }
  }

  /** Only the first entry is looked at: a seeded entry in front hides any
      file picked after it, and the slot then sends no image. */
  lemma OnlyFirstEntryCounts(image: Option<string>, picked: seq<Entry>)
    ensures FirstNewFile([SeedEntry(image)] + picked) == None
    ensures NewFiles([SeedEntry(image)] + picked) == NewFiles(picked)
  {
    NewFilesAppend([SeedEntry(image)], picked);
    assert [SeedEntry(image)][1..] == [];
  }

  /** The component's state. */
  class CategoryState {
    var modalVisible: bool
    var editingCategory: Option<Category>
    var fileList: seq<Entry>
    var uploading: bool

    constructor ()
      ensures !modalVisible && editingCategory.None? && fileList == [] && !uploading
    {
      modalVisible, editingCategory, fileList, uploading := false, None, [], false;
    }

    /** `showAddModal`: nothing being edited, an empty slot, modal open. */
    method ShowAddModal()
      modifies this
      ensures editingCategory.None? && fileList == [] && modalVisible
      ensures uploading == old(uploading)
    {
      editingCategory := None;
      fileList := [];
      modalVisible := true;
    }

    /** `showEditModal`: the category is being edited and the slot holds
        exactly its current image. */
    method ShowEditModal(category: Category)
      modifies this
      ensures editingCategory == Some(category)
      ensures fileList == [SeedEntry(category.image)] && NewFiles(fileList) == []
      ensures modalVisible && uploading == old(uploading)
    {
      editingCategory := Some(category);
      fileList := [SeedEntry(category.image)];
      modalVisible := true;
    }

    /** The `Upload` widget's `onChange`: the list is taken as given. */
    method OnChange(newList: seq<Entry>)
      modifies this`fileList
      ensures fileList == newList
    {
      fileList := newList;
    }

    /** `handleSave`. `values` is what validation resolved to (`None` when
        it threw), `compress` the compressor (`None` when it threw) and
        `serverOk` how the mutation ended. A throw issues no mutation;
        otherwise an edit when a category is being edited and a create if
        not; `uploading` is false at the end either way. */
    method HandleSave(values: Option<CategoryValues>,
                      compress: (FileId, CompressionOptions) -> Option<FileId>,
                      serverOk: bool)
      returns (req: Option<Request>)
      modifies this`uploading, this`modalVisible
      ensures var first := FirstNewFile(fileList);
        req.Some? <==> values.Some? && (first.None? || compress(first.value, CategoryCompression).Some?)
      ensures var first := FirstNewFile(fileList);
        var compressed := if first.Some? then compress(first.value, CategoryCompression) else None;
        req.Some? ==> req.value.Data() == CategoryPayload(values.value, compressed)
      ensures req.Some? ==> (req.value.EditCategory? <==> editingCategory.Some?)
      ensures req.Some? && req.value.EditCategory? ==> req.value.categoryId == editingCategory.value.id
      ensures modalVisible == if req.Some? && serverOk then false else old(modalVisible)
      ensures !uploading
    {
      if values.None? {
        uploading := false;
        return None;
      }
      var fd := [];
      fd := fd + [Field("name", Text(values.value.name))];
      fd := fd + [Field("description", Text(values.value.description))];
      var compressed: Option<FileId> := None;
      if |fileList| > 0 && fileList[0].file.Some? {
        compressed := compress(fileList[0].file.value, CategoryCompression);
        if compressed.None? {
          uploading := false;
          return None;
        }
        fd := fd + [Field("categoryImage", Blob(compressed.value))];
      }
      uploading := true;
      if editingCategory.Some? {
        req := Some(EditCategory(editingCategory.value.id, fd));
      } else {
        req := Some(CreateCategory(fd));
      }
      if serverOk {
        modalVisible := false;
      }
      uploading := false;
    }
  }
}
