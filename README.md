# Storefront admin dashboard: image lists and multipart payloads

This project models the part of the merchant dashboard that manages
images for three entity forms and turns each form's state into the
multipart payload (`FormData`) it submits. It also models a few small
decision rules from other parts of the same screens.

- **Product form** (`ProductForm`): an ordered list of up to five product
  images. Edit mode seeds the list from the product's server URLs.
  Removing a server image records its URL in `deletedImages`. Saving
  sends the scalar fields, one `productImage` part per newly picked file
  in list order, and `deletedImages` as a JSON array. That array is sent
  even when it is empty.
- **Landing form** (`LandingForm`): a single main image and an ordered
  list of hero images. Seeded hero entries are marked `isExisting`. A
  hero change records the URL of an existing entry that left the list.
  Saving sends store name and colour, then an `image` part only when the
  main slot holds a new file, then the new hero files. A
  `deletedHeroImages` JSON array is added only when it is non-empty. The
  colour is upper-cased on input and checked against a hex pattern.
- **Category form** (`CategoryForm`): a single image slot. Only the first
  entry is looked at. A newly picked file goes through an image
  compressor (limits 1 MB and 1920 px) before it is attached. If
  validation or the compressor throws, no request is sent.
- **Social links** (`SocialLinks`): a link is stored with `mailto:` or
  `tel:` according to its redirect type. The edit form detects the type
  and strips the scheme again.
- **Sidebar** (`SideBar`): the active-route rule, where the open state
  comes from, and the collapsed width and label visibility.
- **Orders** (`Orders`): per-product line totals, the progress values
  offered, and the `updatingId` marker around a progress update.

Shared pieces:
- `Upload` holds the upload-list entry, the payload, the loop that
  attaches new files, and the upload percentage.
- `Json` holds `JSON.stringify` of a string array, with a parser that
  reads it back.
- `Strings` holds the string helpers.

Each form is a class. Its fields are the form's state plus the parent's
list it edits. Each handler is a method whose `ensures` gives the whole
new state. Ghost fields carry the invariants the handlers keep:
- In the landing form, deletions are seeded hero URLs, each taken at most
  once. The proof uses the ghost baseline of seeded URLs and the
  positions deleted from it.
- In the product form, deletions are URLs seeded since the last reset.
  Edit-mode seeding does not clear `deletedImages`, so deletions recorded
  while editing one product are still present when another product is
  seeded. The invariant is stated over every URL seeded since
  `deletedImages` was last cleared.

What the dashboard's code does with images and deletions:
- There is no image format conversion. The only compression is of the
  category image, and when the compressor throws, the save is aborted
  rather than sending the original file.
- The product form always sends `deletedImages`, even when it is empty.
  The landing form sends `deletedHeroImages` only when it is non-empty.
- Deletions are not computed from the seeded list at submit time. Each
  removal handler appends to a list, and the model does the same.

The environment is passed in as parameters:
- `validateFields` becomes an `Option` of the form's values (`None` when
  validation rejects).
- How a mutation ends becomes a `serverOk` flag.
- The compressor becomes a function parameter that returns `None` when
  it throws.

## Model

| member | source | states |
|---|---|---|
| `Upload.NewFiles` | src/components/ProductManage/components/ProductForm.jsx:74-78 | never more files than entries; its meaning is stated by the four `NewFiles` lemmas below |
| `Upload.FileParts` | src/components/ProductManage/components/ProductForm.jsx:74-78 | one part per new file; that these parts are exactly the new files, under the given key and in order, is stated by `AppendNewFiles` and the `LandingPayloadHero` and `ProductPayloadReadsBack` lemmas |
| `Upload.NewFilesAppend` | src/components/ProductManage/components/ProductForm.jsx:74-78 | the new files of a concatenated list are those of each part in turn, so attached parts follow list order |
| `Upload.NewFilesMembership` | src/components/LandingManage/components/LandingForModal.jsx:83-87 | a file is attached if and only if some entry of the list carries it |
| `Upload.NewFilesOfSeeded` | src/components/ProductManage/components/ProductForm.jsx:74-78 | a list of seeded entries (no `originFileObj`) attaches nothing |
| `Upload.NewFilesOfPicked` | src/components/LandingManage/components/LandingForModal.jsx:83-87 | a list of picked files attaches every one of them, position by position |
| `Upload.AppendNewFiles` | src/components/ProductManage/components/ProductForm.jsx:74-78 | the `forEach` loop appends exactly one field per entry carrying a file, under the given key, after the fields already present |
| `Upload.FirstNewFile` | src/components/ProductManage/components/Category.jsx:81 | the slot's file is that of entry 0 when it carries one; otherwise none, whatever follows |
| `Upload.ProgressPercent` | src/components/ProductManage/components/Category.jsx:90-92 | the percentage is 100·loaded/total rounded to nearest with halves up; no number when total is 0 |
| `Upload.ProgressPercentBounds` | src/components/ProductManage/components/Category.jsx:91 | with 0 ≤ loaded ≤ total the percentage lies in 0..100; it is 0 at the start and 100 at the end |
| `Upload.ProgressPercentMonotone` | src/components/ProductManage/components/ProductForm.jsx:83-84 | more bytes sent never shows a smaller percentage |
| `Json.StringArray` | src/components/ProductManage/components/ProductForm.jsx:80 | the text is bracketed, and it is `[]` exactly for the empty list |
| `Json.StringArrayRoundTrip` | src/components/ProductManage/components/ProductForm.jsx:80 | the JSON text written for a deletion list parses back to exactly that list, whatever characters the URLs contain |
| `Json.StringArrayInjective` | src/components/LandingManage/components/LandingForModal.jsx:90 | different deletion lists are sent as different texts |
| `ProductForm.SeedEntries` | src/components/ProductManage/components/ProductForm.jsx:46-53 | one entry per server image, carrying its URL, with no new file and not marked existing |
| `ProductForm.SeedEntriesFaithful` | src/components/ProductManage/components/ProductForm.jsx:46-53 | edit-mode seeding gives one entry per server image in server order, with its URL, named `image-i`, with distinct uids and no new file |
| `ProductForm.ProductPayload` | src/components/ProductManage/components/ProductForm.jsx:66-80 | six scalar fields, one part per new file, and the `deletedImages` JSON text as the last field |
| `ProductForm.ProductPayloadReadsBack` | src/components/ProductManage/components/ProductForm.jsx:66-80 | the payload starts with name, discountPrice, description, category (= categoryId), price (= salePrice), stockCount, each carrying the validated value; its `productImage` parts are exactly the new files in list order; `deletedImages` always comes last and parses back to the deletion list, even when empty |
| `ProductForm.ProductFormState.constructor` | src/components/ProductManage/components/ProductForm.jsx:32-33 | the form starts with no images, no deletions, not uploading |
| `ProductForm.ProductFormState.Seed` | src/components/ProductManage/components/ProductForm.jsx:35-60 | edit mode with a product lists its server images and keeps `deletedImages`; otherwise both lists are emptied; the URLs deletions may come from gain the product's images in edit mode and are reset otherwise, and deletions stay within them |
| `ProductForm.ProductFormState.OnChange` | src/components/ProductManage/components/ProductForm.jsx:232-238 | a new list longer than 5 leaves the list unchanged; any other becomes the list exactly |
| `ProductForm.ProductFormState.OnRemove` | src/components/ProductManage/components/ProductForm.jsx:239-243 | removing an entry with a non-empty URL appends that URL to `deletedImages`; removing a new file leaves it unchanged |
| `ProductForm.ProductFormState.BeforeUpload` | src/components/ProductManage/components/ProductForm.jsx:244-251 | the batch is dropped if and only if current plus incoming exceeds 5; otherwise it is kept without automatic upload |
| `ProductForm.ProductFormState.Payload` | src/components/ProductManage/components/ProductForm.jsx:66-80 | the `FormData` built is the product payload of the current values, list and deletions |
| `ProductForm.ProductFormState.HandleSave` | src/components/ProductManage/components/ProductForm.jsx:62-143 | a request is sent if and only if validation passes; it is an edit of the product in edit mode with a product and a create otherwise; only a successful create clears the list and deletions; success closes the modal; `uploading` ends false |
| `ProductForm.ScenarioRemoveAndAdd` | src/components/ProductManage/components/ProductForm.jsx:46-80 | for any server images [a, b, c] with b non-empty, seeding them, removing b and adding a file d yields one `productImage` part, for d, and `deletedImages` = [b] |
| `ProductForm.KeptPayload` | src/components/ProductManage/components/ProductForm.jsx:66-80 | with two seeded entries and one picked file in the list, the payload has exactly that file as its image part and the deletion list last |
| `LandingForm.MainEntry` | src/components/LandingManage/components/LandingForModal.jsx:32-39 | the main slot's entry shows the server image, carries no file and is not a deletable hero entry, so it attaches no `image` part |
| `LandingForm.HeroEntries` | src/components/LandingManage/components/LandingForModal.jsx:41-49 | one `isExisting` entry per hero URL, in order, each showing its URL and carrying no file |
| `LandingForm.Find` | src/components/LandingManage/components/LandingForModal.jsx:67 | the entry found is the first in the list with the uid asked for; none found means no entry has it |
| `LandingForm.Removal` | src/components/LandingManage/components/LandingForModal.jsx:67-70 | a removal is an existing entry of the old list with the changed uid, and no entry of the new list has that uid; otherwise there is none |
| `LandingForm.PickWithinBaseline` | src/components/LandingManage/components/LandingForModal.jsx:66-70 | URLs taken at distinct seeded positions form a sub-multiset of the seeded URLs |
| `LandingForm.PickDistinct` | src/components/LandingManage/components/LandingForModal.jsx:66-70 | taken from seeded URLs without repeats, they have no repeats |
| `LandingForm.ColourPattern` | src/components/LandingManage/components/LandingForModal.jsx:121 | a colour the pattern accepts has 4 or 7 characters |
| `LandingForm.ColourPatternMeaning` | src/components/LandingManage/components/LandingForModal.jsx:121 | the pattern accepts exactly `#` and 3 or 6 hex digits, and accepts a colour if and only if it accepts its upper-cased form (with the ASCII-only upper-casing of `Strings.Upper`) |
| `LandingForm.ValuesValid` | src/components/LandingManage/components/LandingForModal.jsx:106-124 | valid exactly when the store name is non-empty and the colour matches the pattern (the required check on the colour is implied by the pattern) |
| `Strings.Upper` | src/components/LandingManage/components/LandingForModal.jsx:130 | same length; each ASCII lower-case letter becomes its upper-case letter and every other character is kept (weaker than `toUpperCase`; see Left out) |
| `LandingForm.UpperIdempotent` | src/components/LandingManage/components/LandingForModal.jsx:130 | upper-casing twice equals upper-casing once and leaves no lower-case letter |
| `LandingForm.LandingPayload` | src/components/LandingManage/components/LandingForModal.jsx:75-91 | the payload `handleFinish` assembles; its contents are stated by the five lemmas below |
| `LandingForm.LandingPayloadKeys` | src/components/LandingManage/components/LandingForModal.jsx:75-91 | the keys are exactly storeName, colourCode, `image` when there is a new main file, one `heroImage` per new hero file, and `deletedHeroImages` when there are deletions, in that order; hence its length |
| `LandingForm.LandingPayloadFields` | src/components/LandingManage/components/LandingForModal.jsx:75-77 | storeName and colourCode are the first two fields, carrying the submitted values |
| `LandingForm.LandingPayloadImage` | src/components/LandingManage/components/LandingForModal.jsx:79-81 | an `image` part is present only when the main list is non-empty and its first entry has a new file, and then it is that file |
| `LandingForm.LandingPayloadHero` | src/components/LandingManage/components/LandingForModal.jsx:83-87 | the `heroImage` parts are exactly the new hero files, in list order |
| `LandingForm.LandingPayloadDeletions` | src/components/LandingManage/components/LandingForModal.jsx:89-91 | `deletedHeroImages` is present if and only if the list is non-empty; then it is last and parses back to the list |
| `LandingForm.LandingFormState.constructor` | src/components/LandingManage/components/LandingForModal.jsx:18-19 | no deletions and colour `#000000` at first; the form fields are empty |
| `LandingForm.LandingFormState.Seed` | src/components/LandingManage/components/LandingForModal.jsx:21-64 | opening with a landing seeds the main slot with one entry (uid `-1`, its image, no file), one `isExisting` hero entry per hero URL in order, no deletions, and its colour or `#000000`; opening without one empties everything and sets `#000000`; the seeded hero URLs the deletion invariant refers to become the landing's hero URLs (none without a landing); closed, nothing changes |
| `LandingForm.LandingFormState.HandleHeroImageChange` | src/components/LandingManage/components/LandingForModal.jsx:66-72 | the removed URL is appended only when the uid was in the old list, that entry is existing, and no entry of the new list has the uid; the hero list always becomes the new list; the seeded hero URLs stay as they were and the deletion invariant is kept |
| `LandingForm.LandingFormState.DeletionsWithinBaseline` | src/components/LandingManage/components/LandingForModal.jsx:41-71 | deletions are seeded hero URLs, a sub-multiset of them, and without duplicates when the seeded URLs have none |
| `LandingForm.OpenThenChangeHero` | src/components/LandingManage/components/LandingForModal.jsx:21-72 | after opening on a landing and one hero change, the deletions are among that landing's hero URLs (a sub-multiset) and number at most one |
| `LandingForm.LandingFormState.OnMainImageChange` | src/components/LandingManage/components/LandingForModal.jsx:161 | the main list becomes the new list |
| `LandingForm.LandingFormState.OnColourInput` | src/components/LandingManage/components/LandingForModal.jsx:129-144 | picker and text input both set the colour state and the form field to the upper-cased input, which passes the pattern if and only if the typed colour does |
| `LandingForm.LandingFormState.OnStoreNameInput` | src/components/LandingManage/components/LandingForModal.jsx:106-112 | the store-name field takes the text as typed |
| `LandingForm.LandingFormState.HandleFinish` | src/components/LandingManage/components/LandingForModal.jsx:74-94 | the `FormData` built is the landing payload of the values, both lists and the deletions |
| `LandingForm.LandingFormState.Submit` | src/components/LandingManage/components/LandingForModal.jsx:101-124 | `form.submit()` validates the form's own fields: a payload is produced if and only if the store-name field is non-empty and the colour field matches the pattern, and it is the payload of those fields |
| `CategoryForm.CategoryPayload` | src/components/ProductManage/components/Category.jsx:77-87 | three fields with a compressed image, two without |
| `CategoryForm.CategoryPayloadReadsBack` | src/components/ProductManage/components/Category.jsx:77-87 | name and description come first; a `categoryImage` part is present if and only if there is a compressed image, and it is that image |
| `CategoryForm.SeedEntry` | src/components/ProductManage/components/Category.jsx:57-64 | the edit slot's entry shows the category's image and carries no file, so it sends no image |
| `CategoryForm.OnlyFirstEntryCounts` | src/components/ProductManage/components/Category.jsx:81 | with the seeded entry in front, files picked after it are never attached |
| `CategoryForm.CategoryState.constructor` | src/components/ProductManage/components/Category.jsx:30-35 | closed, nothing edited, empty slot, not uploading |
| `CategoryForm.CategoryState.ShowAddModal` | src/components/ProductManage/components/Category.jsx:44-49 | nothing being edited, empty slot, modal open |
| `CategoryForm.CategoryState.ShowEditModal` | src/components/ProductManage/components/Category.jsx:51-66 | the category is being edited and the slot holds exactly one entry (uid `1`, its image, no file) |
| `CategoryForm.CategoryState.OnChange` | src/components/ProductManage/components/Category.jsx:241 | the slot list becomes the new list |
| `CategoryForm.CategoryState.HandleSave` | src/components/ProductManage/components/Category.jsx:74-145 | a request is sent if and only if validation passes and, when entry 0 has a new file, the compressor (called with 1 MB, 1920 px) returns one; it carries the compressed file; edit if a category is being edited, create otherwise; success closes the modal; `uploading` ends false |
| `SocialLinks.EncodeLink` | src/components/LandingManage/components/SocialLinkManager.jsx:70-76 | a URL is stored as entered; e-mail gets the `mailto:` prefix and phone the `tel:` prefix, followed by exactly the entered text |
| `SocialLinks.DetectType` | src/components/LandingManage/components/SocialLinkManager.jsx:44-48 | e-mail exactly when the link starts with `mailto:`, phone exactly when it does not but starts with `tel:`, URL otherwise |
| `SocialLinks.StripAsWritten` | src/components/LandingManage/components/SocialLinkManager.jsx:42 | as written: a leading `mailto:` is removed; otherwise the first `tel:` is removed: no occurrence precedes the one taken out, and the rest stays in place; a link with neither is unchanged |
| `SocialLinks.StripScheme` | src/components/LandingManage/components/SocialLinkManager.jsx:42 | corrected: only a leading `mailto:` or `tel:` is removed; any other link is unchanged |
| `SocialLinks.EncodeThenDetect` | src/components/LandingManage/components/SocialLinkManager.jsx:70-76 | with the corrected removal `StripScheme` (not the program's): e-mail and phone links read back with their type and text; a URL does so if and only if it does not itself start with a scheme. The program's behaviour is `EncodeThenStripAsWritten` |
| `SocialLinks.DetectThenEncode` | src/components/LandingManage/components/SocialLinkManager.jsx:42-48 | corrected member: with the intended, anchored scheme removal, re-encoding a detected link gives the stored link back for every link |
| `SocialLinks.DetectThenEncodeAsWritten` | src/components/LandingManage/components/SocialLinkManager.jsx:42-48 | with the removal as written, re-encoding a detected link gives it back if and only if it starts with `mailto:` or `tel:` or contains no `tel:` |
| `SocialLinks.EncodeThenStripAsWritten` | src/components/LandingManage/components/SocialLinkManager.jsx:42 | with the expression as written, e-mail and phone round-trip, and a URL does if and only if it neither starts with `mailto:` nor contains `tel:` |
| `SocialLinks.StripAsWrittenCorruptsUrl` | src/components/LandingManage/components/SocialLinkManager.jsx:42 | a URL containing `tel:` is altered by an unchanged edit as written, and kept by the intended removal |
| `SocialLinks.SocialLinkManagerState.constructor` | src/components/LandingManage/components/SocialLinkManager.jsx:20-21 | modal closed, nothing edited |
| `SocialLinks.SocialLinkManagerState.OpenCreateModal` | src/components/LandingManage/components/SocialLinkManager.jsx:30-34 | nothing edited, fields reset, modal open |
| `SocialLinks.SocialLinkManagerState.OpenEditModal` | src/components/LandingManage/components/SocialLinkManager.jsx:37-53 | the fields hold the name, the link after the removal as written (a leading `mailto:`, else the first `tel:` anywhere), the icon and the detected type; the item is being edited |
| `SocialLinks.SocialLinkManagerState.HandleSubmit` | src/components/LandingManage/components/SocialLinkManager.jsx:68-99 | the payload is {name, encoded link, icon}; an edit of the item if one is being edited, a create otherwise; a create always closes and clears, an edit only when it succeeds |
| `SocialLinks.EditWithoutChanges` | src/components/LandingManage/components/SocialLinkManager.jsx:37-93 | opening a link for edit and submitting it unchanged sends an edit of it with the same name and icon; the link is unchanged if and only if it starts with a scheme or contains no `tel:` |
| `SideBar.IsActive` | src/components/ui/SideBar.jsx:128-131 | an active link is never `#` and its href is a prefix of the current path |
| `SideBar.IsActiveCases` | src/components/ui/SideBar.jsx:128-131 | `#` is never active; an href equal to the path is active; `/` only on `/`; any other href exactly on the paths it prefixes |
| `SideBar.PrefixNotSegmentBounded` | src/components/ui/SideBar.jsx:130 | `/prod` is active on `/products`, `/orders` on `/orders/42`, `/` not on `/orders` |
| `SideBar.PropOrState` | src/components/ui/SideBar.jsx:27-28 | a defined prop wins; otherwise the internal state is used |
| `SideBar.AnimateOf` | src/components/ui/SideBar.jsx:22 | animation is on unless the parent passes `false`, so it is on by default |
| `SideBar.DesktopWidth` | src/components/ui/SideBar.jsx:64 | the desktop bar's width; its meaning is stated by `CollapsedHidesLabels` |
| `SideBar.LabelDisplay` | src/components/ui/SideBar.jsx:159 | a link label's `display`; its meaning is stated by `CollapsedHidesLabels` |
| `SideBar.LabelOpacity` | src/components/ui/SideBar.jsx:160 | a link label's opacity; its meaning is stated by `CollapsedHidesLabels` |
| `SideBar.CollapsedHidesLabels` | src/components/ui/SideBar.jsx:63-65 | the bar is 60px exactly when animating and closed, 300px otherwise, and labels are hidden (display none, opacity 0) exactly then |
| `SideBar.UnconfiguredStartsCollapsed` | src/components/ui/SideBar.jsx:20-28 | a provider given neither `open` nor `animate` animates and starts closed, so the bar is 60px with hidden labels |
| `Orders.DisplayName` | src/components/OrderManage/components/Order.jsx:82 | never empty: the product's name when it is present and non-empty, `Unknown` otherwise |
| `Orders.PriceOrZero` | src/components/OrderManage/components/Order.jsx:83-84 | a missing price or discount reads 0; a present one reads as itself |
| `Orders.LineOf` | src/components/OrderManage/components/Order.jsx:82-86 | a line shows the display name and the quantity of its element; a missing product totals 0 |
| `Orders.Lines` | src/components/OrderManage/components/Order.jsx:80-81 | one line per element of `products`, in order, each the line of that element; their count is `products.length` |
| `Orders.LineTotalMeaning` | src/components/OrderManage/components/Order.jsx:83-86 | total = (price − discount) × quantity with missing values as 0; non-negative when price ≥ discount and quantity ≥ 0; negative when the discount exceeds the price |
| `Orders.LinesFollowProducts` | src/components/OrderManage/components/Order.jsx:81 | adding a product appends its line |
| `Orders.MissingProductLine` | src/components/OrderManage/components/Order.jsx:82-84 | a missing product shows `Unknown` and totals 0 |
| `Orders.Lookup` | src/components/OrderManage/components/Order.jsx:181 | property access: no value when no entry has the key; otherwise the value of the first entry with it |
| `Orders.ProgressOptions` | src/components/OrderManage/components/Order.jsx:178 | one option per entry of the colour table; which ones is stated by `ProgressOptionsExact` |
| `Orders.ColourOf` | src/components/OrderManage/components/Order.jsx:181 | the tag colour of a status, looked up in the colour table; which statuses have one is stated by `ProgressOptionsExact` |
| `Orders.ProgressOptionsExact` | src/components/OrderManage/components/Order.jsx:25-30 | the options are exactly pending, accepted, declined, done, in order, coloured orange, blue, red, green, and no other value has a colour |
| `Orders.OrderTableState.constructor` | src/components/OrderManage/components/Order.jsx:37 | nothing updating |
| `Orders.OrderTableState.HandleProgressChange` | src/components/OrderManage/components/Order.jsx:41-54 | sends the update for the order; `updatingId` is set to the id and then reset to null, on success or failure |

## Left out

- Image format conversion: the dashboard performs none, so there is nothing to model.
- The image compressor's internals: it is a parameter that returns some file or fails. Output size and pixel bounds are not modelled.
- HTTP transport, query caching and invalidation: mutations are returned as request values.
- Upload-progress event delivery and the `message` toasts. The only message modelled is the order-progress notice.
- The landing create/edit call made by the parent page (`src/components/LandingManage/index.jsx`). The model stops at the `FormData` handed to `onSubmit`.
- Rendering: JSX, tables, modals, the colour picker widget, animation, icon cloning, and the upload button hidden at five images.
- The Ant Design form store of the product, category and social-link forms: validation results are parameters, and the product and category field prefill (`form.setFieldsValue`, `resetFields`) is not modelled. The landing form keeps its two fields, `storeName` and `colourCode`, in the class, and `Submit` validates and sends them.
- The entry `status` field, which no handler reads.
- Delete handlers in the category, social-link and order screens. Each is a single mutation call with no decision logic.
- Asynchrony: the landing `setTimeout`, promise chains and re-render batching. Each handler is one atomic step. `uploading` is shown as it ends (false), not as it is while the request runs.
- The sidebar's mouse-enter/leave and mobile toggle handlers. They only call the chosen setter with `true`, `false` or `!open`.
- `SideBar.AnimateOf`: other falsy values of `animate` (`0`, `""`, `null`) are not modelled; the prop is absent, `true` or `false`.
- JavaScript numbers: prices, quantities and byte counts are integers. `Math.round` is exact, with halves rounded up. NaN from a missing quantity is not modelled.
- `ProductForm.ProductFormState.OnChange`: requires that each entry of the new list with a URL comes from the old list. This is how the Upload widget behaves, and the deletion invariant needs it.
- `ProductForm.ProductFormState.OnRemove`: requires that the removed entry is in the list, as the widget guarantees.
- `LandingForm.LandingFormState.HandleHeroImageChange`: requires that every `isExisting` entry of the new list comes from the old list. The widget keeps or drops entries but never creates existing ones.
- `Strings.Upper`: upper-casing covers ASCII letters only, unlike `toUpperCase`. In JavaScript `"#ﬀﬀﬀ".toUpperCase()` is `"#FFFFFF"`, which passes the colour pattern, while the model keeps `"#ﬀﬀﬀ"` and rejects it. `LandingForm.ColourPatternMeaning` and `LandingForm.UpperIdempotent` rely on this casing.
- `LandingForm.LandingFormState.OnColourInput`: upper-casing covers ASCII letters only. Other characters are left unchanged, unlike `toUpperCase`.
- `Json.StringArrayRoundTrip`: characters are Unicode scalar values, so the escaping of lone surrogates is not modelled.

## Findings

| source | as written | input that shows it | evidently intended | confidence | as-written member | corrected member |
|---|---|---|---|---|---|---|
| src/components/LandingManage/components/SocialLinkManager.jsx:42 | the pattern is the alternation of `^mailto:` and an unanchored `tel:`, so the first `tel:` anywhere in the link is removed | stored URL `https://x.co/tel:1`, opened for edit and saved unchanged, is stored as `https://x.co/1` | remove only a leading `mailto:` or `tel:` (the anchor applied to both alternatives) | high; not executed | `SocialLinks.StripAsWrittenCorruptsUrl` | `SocialLinks.DetectThenEncode` |

`SocialLinks.StripAsWritten` models the line as written, and the edit form (`SocialLinks.SocialLinkManagerState.OpenEditModal`) uses it, as the dashboard does; `SocialLinks.EditWithoutChanges` states for which links an unchanged edit keeps the link. `SocialLinks.StripScheme` is the corrected removal; `SocialLinks.DetectThenEncode` proves that with it every stored link survives an unchanged edit.
