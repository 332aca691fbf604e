# BookStore admin dashboard — verified model of its screens

This project models the data-handling core of the BookStore admin dashboard. The
dashboard is a browser application: an administrator signs in and manages the
store's catalogue through table screens. Five screens form the core modelled here:

- **Book images** (`ImageScreen`) and **book specifications** (`SpecificationScreen`).
  Each is a paginated, searchable list with a create/edit modal, row selection by
  checkbox and bulk delete.
- **Orders** (`OrderScreen`). A paginated list with a coloured status badge per row,
  and an edit modal that changes only the order's status.
- **Categories** (`CategoryScreen`). A fixed two-row table with row selection and an
  is-leaf picker.
- **Sign-in form** (`SignIn`). Live validation of email and password, the
  submit-button rule, and the login handler with its redirect target.

The React state of each screen is a Dafny `class` whose fields are the state
variables. Each event handler is a `method` that changes exactly those fields. A
handler returns the observable actions it takes, in order, as a sequence of
`Http.Effect` values:

- a request sent to the back end, with its path and body;
- a toast notification, as an `Http.Notice` (one constructor per message the
  screens show);
- a re-fetch of the current page.

The back end's answer is a parameter of the handler (`Http.Reply`), so every branch
of the source is reachable. An exception is `Rejected`, a falsy result is `Falsy`,
and a JSON array is `ArrayBody`.

The three paginated screens share the same pagination block, written three times in
the source: Image.tsx:573-667, Specification.tsx:487-581 and Order.tsx:391-485. It is
modelled once, in `Pagination`:

- the five-button page window;
- the first/previous/next/last moves;
- the go-to-page box;
- row numbering;
- the generic class `Listing<T>`, which holds page, total pages, page input, the
  listed items and the search keyword.

Bulk delete sends the selected ids in the URL as a JSON array. `Json` models that
serialiser and a decoder for it, and proves the round trip. `Selection` models the
checkbox toggle and select-all. `Books` models the `??` normalisation applied to the
book picker's data.

## Model

| member | source | states |
|---|---|---|
| Json.NatText | src/pages/Products/Image.tsx:250 | the JSON text of a non-negative id is a non-empty run of decimal digits with no leading zero; it starts with `0` exactly for 0, which is written `0` |
| Json.IntText | src/pages/Products/Image.tsx:250 | the JSON text of an id is non-empty and contains neither the element separator `,` nor the closing `]` |
| Json.JoinIds | src/pages/Products/Image.tsx:250 | the comma-joined element list is empty exactly when the id list is empty |
| Json.CommaIndex | src/pages/Products/Image.tsx:250 | the decoder's separator search returns the position of the first `,`, or the length when there is none |
| Json.NatTextRoundTrip | src/pages/Products/Image.tsx:250 | reading the digits of a non-negative id's text gives the id back |
| Json.IntTextRoundTrip | src/pages/Products/Image.tsx:250 | parsing any id's JSON text, negative ids included, gives the id back |
| Json.CanonicalDigitsAreNatText | src/pages/Products/Image.tsx:250 | a digit string without a leading zero is exactly the text the serialiser writes for its value |
| Json.ParseIntOnlyCanonical | src/pages/Products/Image.tsx:250 | whatever the decoder accepts as an id is exactly that id's serialised text, so `007` and `-0` are refused |
| Json.DecodeJoined | src/pages/Products/Image.tsx:250 | decoding the comma-joined element list gives the id list back |
| Json.IdArrayRoundTrip | src/pages/Products/Image.tsx:250 | decoding the JSON array text of any id list gives exactly that list, in order, duplicates included |
| Json.IdArrayInjective | src/pages/Products/Image.tsx:250 | two different selections never serialise to the same text |
| Http.DeleteUrl | src/pages/Products/Image.tsx:250-253 | the delete URL is `/<resource>/deletemulti?checkedList=` followed by text that decodes back to exactly the selected ids |
| Http.MutationOutcomeMeaning | src/pages/Products/Image.tsx:192-201 | a settled create or update shows its error notice exactly when the request threw, its success notice and a re-fetch exactly when the reply is truthy, and does nothing on a falsy reply |
| Http.DeleteOutcomeMeaning | src/pages/Products/Image.tsx:254-267 | a settled delete reports "blocked" iff the reply is a non-empty array whose first element is 0, "deleted n" iff it is a non-empty array whose first element is anything else, and failure iff the request was rejected; the list is re-fetched exactly when the reply is truthy (an empty array included) |
| Pagination.Window | src/pages/Products/Image.tsx:600-608 | the visible window lies inside `0..totalPages-1`, holds `min(5, totalPages)` pages, and contains the current page iff that page exists |
| Pagination.WindowCentred | src/pages/Products/Image.tsx:603-604 | away from both ends, the window is centred on the current page, two pages either side |
| Pagination.WindowAtStart | src/pages/Products/Image.tsx:603-607 | on the first two pages the window starts at page 0 and shows pages 0 to `min(4, totalPages-1)` |
| Pagination.WindowAtEnd | src/pages/Products/Image.tsx:606-607 | near the last page, the window is pulled back so that it ends at the last page and still holds `min(5, totalPages)` pages |
| Pagination.PageButtons | src/pages/Products/Image.tsx:600-623 | the button loop emits the window's pages, consecutive and in increasing order, each inside `0..totalPages-1`, including the current page iff it exists |
| Pagination.MovesMeaning | src/pages/Products/Image.tsx:583-593 | from a valid page, the first/previous/next/last moves stay valid; previous and next move by exactly one unless at an end; the "first" and "previous" buttons are disabled exactly on page 0; "next" and "last" exactly on the last page |
| Pagination.SinglePageAllDisabled | src/pages/Products/Image.tsx:583-638 | with a single page, the window shows page 0 alone from any page, and "next" and "last" go to page 0; all four move buttons are disabled exactly when the current page is 0 |
| Pagination.StalePageMovesEnabled | src/pages/Products/Image.tsx:583-638 | on a page beyond the last one, all four move buttons are enabled and the window does not contain the page; "next" and "last" go to the last page; "previous" steps back by one, which from two or more pages past the end is still a page that does not exist |
| Pagination.PageInputOf | src/pages/Products/Image.tsx:652 | the page box holds the parsed number unless parsing failed or gave 0, in which case it holds 1; it is never 0 |
| Pagination.GoToTarget | src/pages/Products/Image.tsx:658-661 | "go" clamps the entered page number into `1..totalPages`; an in-range entry is kept as typed |
| Pagination.GoToIdempotent | src/pages/Products/Image.tsx:658-661 | pressing "go" again on the clamped value changes nothing |
| Pagination.RowNumberRoundTrip | src/pages/Order.tsx:327 | the row number `page*8 + index + 1` determines the page and index it came from |
| Pagination.RowNumbersDistinct | src/pages/Order.tsx:72 | two different rows, on the same or different pages, never show the same number |
| Pagination.RowNumbersIncrease | src/pages/Order.tsx:325-327 | on one page, row numbers grow with the row index, by exactly one per row |
| Pagination.RowNumbersAcrossPages | src/pages/Order.tsx:325-327 | every row number on a page precedes every row number on the next page |
| Pagination.Listing.constructor | src/pages/Products/Image.tsx:50-63 | a listing starts on page 0 with no pages, page input 0, no items and no keyword |
| Pagination.Listing.Fetch | src/pages/Products/Image.tsx:95-109 | the page request asks for the current page, 8 rows and the keyword; a list reply replaces items and total pages; a malformed reply or a failure changes nothing and raises "invalid data" or "could not load" |
| Pagination.Listing.SetKeyword | src/pages/Products/Image.tsx:72-78 | the settled search text becomes the keyword; the page is not reset |
| Pagination.Listing.First | src/pages/Products/Image.tsx:584 | "first" goes to page 0 |
| Pagination.Listing.Prev | src/pages/Products/Image.tsx:593 | "previous" goes back one page, not below 0 |
| Pagination.Listing.Next | src/pages/Products/Image.tsx:629 | "next" goes forward one page, not past the last |
| Pagination.Listing.Last | src/pages/Products/Image.tsx:638 | "last" goes to page `totalPages - 1` |
| Pagination.Listing.SelectPage | src/pages/Products/Image.tsx:610-618 | a window button goes to its own page, which is a valid page |
| Pagination.Listing.SetPageInput | src/pages/Products/Image.tsx:652 | editing the page box stores the parsed number, or 1 |
| Pagination.Listing.GoToPage | src/pages/Products/Image.tsx:658-662 | "go" moves to the clamped page (zero-based) and writes the clamped one-based number back into the box |
| Selection.Without | src/pages/Products/Image.tsx:284 | filtering an id out removes every occurrence of it, keeps every other id, and never lengthens the list |
| Selection.WithoutAbsent | src/pages/Products/Image.tsx:284 | filtering out an id that is not selected leaves the selection as it was |
| Selection.WithoutConcat | src/pages/Products/Image.tsx:284 | filtering distributes over concatenation |
| Selection.WithoutCounts | src/pages/Products/Image.tsx:284 | filtering keeps every other id's multiplicity and drops the id's multiplicity to zero |
| Selection.ToggleMeaning | src/pages/Products/Image.tsx:282-288 | a checkbox click flips exactly that id's membership, leaves every other id alone, and appends a newly selected id at the end |
| Selection.ToggleTwiceRestores | src/pages/Products/Image.tsx:282-288 | clicking the same checkbox twice, starting from unselected, restores the selection exactly |
| Selection.Ids | src/pages/Products/Image.tsx:277 | the selectable ids are the listed rows' ids, one per row, in list order |
| Selection.TickEachAppends | src/pages/Products/Image.tsx:282-288 | ticking distinct, unselected rows one after another appends their ids in the order ticked |
| Selection.TickingEveryRowSelectsAll | src/pages/Products/Image.tsx:273-288 | from an empty selection, ticking every listed row in list order gives exactly the selection the header checkbox makes |
| Books.NormalizeAll | src/pages/Products/Image.tsx:115-119 | normalising the book picker's data keeps one book per input record, in order |
| Books.NormalizeMeaning | src/pages/Products/Image.tsx:116-118 | each book takes `bookId`, else `id`, else 0; `name`, else `title`, else ""; `description`, else "" |
| Books.NormalizeKeepsCanonical | src/pages/Products/Specification.tsx:112-114 | a record that already carries bookId, name and description is unchanged by normalisation |
| ImageScreen.BodiesCopyDraft | src/pages/Products/Image.tsx:182-219 | the create and update bodies carry the draft's fields verbatim, and update adds the image id; the draft is recoverable from either body |
| ImageScreen.BookImageScreen.constructor | src/pages/Products/Image.tsx:50-66 | the screen starts on page 0 with no pages, page input 0, no items and no keyword, with no selection, no draft, the modal closed and no books |
| ImageScreen.BookImageScreen.FetchBooks | src/pages/Products/Image.tsx:111-126 | a book-array reply replaces the picker's books with the normalised records; otherwise nothing changes and a load error is raised |
| ImageScreen.BookImageScreen.ResetForm | src/pages/Products/Image.tsx:129-133 | reset drops the draft and clears the selection and the header checkbox |
| ImageScreen.BookImageScreen.PrepareAdd | src/pages/Products/Image.tsx:135-148 | "add" opens the modal on a blank draft with image id 0 |
| ImageScreen.BookImageScreen.PrepareEdit | src/pages/Products/Image.tsx:150-153 | "edit" opens the modal on a copy of the chosen image |
| ImageScreen.BookImageScreen.CloseModal | src/pages/Products/Image.tsx:793 | "cancel" closes the modal and leaves the draft and selection as they were |
| ImageScreen.BookImageScreen.Add | src/pages/Products/Image.tsx:178-202 | create posts the draft's body to `/BookImage/create`; a truthy reply announces success, re-fetches, resets the form and closes the modal; a rejected request reports failure and a falsy reply is silent, both leaving the screen unchanged; without a draft nothing happens |
| ImageScreen.BookImageScreen.Update | src/pages/Products/Image.tsx:206-231 | update puts the draft with its image id to `/BookImage/Update`, with the same branches as create; without a draft or with a non-positive id nothing happens |
| ImageScreen.BookImageScreen.Submit | src/pages/Products/Image.tsx:156-174 | without a draft nothing happens; a positive image id means update and any other id means create |
| ImageScreen.BookImageScreen.Delete | src/pages/Products/Image.tsx:235-271 | an empty selection is refused with a warning; a cancelled confirmation does nothing; otherwise it sends the delete URL for exactly the selected ids and reacts to the reply as `Http.DeleteOutcome` says |
| ImageScreen.BookImageScreen.SelectAll | src/pages/Products/Image.tsx:273-280 | the header checkbox flips its flag; once set, every listed image id is selected in list order, and once cleared, nothing is |
| ImageScreen.BookImageScreen.CheckboxChange | src/pages/Products/Image.tsx:282-288 | a row checkbox toggles that id in the selection and nothing else |
| SpecificationScreen.BodiesCopyDraft | src/pages/Products/Specification.tsx:175-205 | the create and update bodies carry the draft's fields verbatim, and update adds the specification id |
| SpecificationScreen.SpecScreen.constructor | src/pages/Products/Specification.tsx:46-62 | the screen starts on page 0 with no pages, page input 0, no items and no keyword, with no selection, no draft, the modal closed and no books |
| SpecificationScreen.SpecScreen.FetchBooks | src/pages/Products/Specification.tsx:107-122 | a book-array reply replaces the books with the normalised records; otherwise a load error is raised |
| SpecificationScreen.SpecScreen.ResetForm | src/pages/Products/Specification.tsx:125-129 | reset drops the draft and clears the selection |
| SpecificationScreen.SpecScreen.PrepareAdd | src/pages/Products/Specification.tsx:131-141 | "add" opens the modal on a blank draft with id 0 |
| SpecificationScreen.SpecScreen.PrepareEdit | src/pages/Products/Specification.tsx:143-146 | "edit" opens the modal on a copy of the chosen specification |
| SpecificationScreen.SpecScreen.CloseModal | src/pages/Products/Specification.tsx:669 | "cancel" closes the modal only |
| SpecificationScreen.SpecScreen.Add | src/pages/Products/Specification.tsx:171-192 | create posts the draft to `/BookSpecification/create`; a truthy reply announces success, re-fetches, resets and closes; a rejected request reports failure and a falsy reply is silent, both leaving the screen unchanged |
| SpecificationScreen.SpecScreen.Update | src/pages/Products/Specification.tsx:196-218 | update puts the draft with its id to `/BookSpecification/Update`, with the same branches; without a draft or with a non-positive id nothing happens |
| SpecificationScreen.SpecScreen.Submit | src/pages/Products/Specification.tsx:149-167 | without a draft nothing happens; a positive id means update and any other id means create |
| SpecificationScreen.SpecScreen.Delete | src/pages/Products/Specification.tsx:222-258 | refuses an empty selection, honours the confirmation, and sends the delete URL for exactly the selected ids |
| SpecificationScreen.SpecScreen.SelectAll | src/pages/Products/Specification.tsx:260-267 | the header checkbox flips its flag; once set, every listed specification id is selected in list order, and once cleared, nothing is |
| SpecificationScreen.SpecScreen.CheckboxChange | src/pages/Products/Specification.tsx:269-275 | toggles one id in the selection |
| OrderScreen.StatusColorMeaning | src/pages/Order.tsx:175-190 | the five statuses, in picker order, get the info, primary, light, success and error badges; any other status text falls back to primary, so a badge other than primary names exactly one status |
| OrderScreen.UpdateBodyCopiesDraft | src/pages/Order.tsx:153-161 | the update body carries the draft's fields verbatim, with the user reduced to its id |
| OrderScreen.OrderScreenState.constructor | src/pages/Order.tsx:71-82 | the screen starts on page 0 with no pages, page input 0, no items and no keyword, with no draft and the modal closed |
| OrderScreen.OrderScreenState.ResetForm | src/pages/Order.tsx:123-126 | reset drops the draft |
| OrderScreen.OrderScreenState.PrepareEdit | src/pages/Order.tsx:128-131 | "edit" opens the modal on a copy of the chosen order |
| OrderScreen.OrderScreenState.CloseModal | src/pages/Order.tsx:500 | "cancel" closes the modal only |
| OrderScreen.OrderScreenState.SelectStatus | src/pages/Order.tsx:517-523 | choosing a status changes only the draft's status, and only when there is a draft and an option |
| OrderScreen.OrderScreenState.Update | src/pages/Order.tsx:149-173 | update puts the draft to `/Order/Update`; a truthy reply announces success, re-fetches, resets and closes; a rejected request reports failure and a falsy reply is silent; without a draft or with a non-positive order id nothing happens |
| OrderScreen.OrderScreenState.Submit | src/pages/Order.tsx:134-146 | without a draft nothing happens; otherwise it updates |
| CategoryScreen.IsLeafRoundTrip | src/pages/Category.tsx:230-231 | the is-leaf picker's text value reads back as the flag it shows, and only "true" reads as true |
| CategoryScreen.CategoryRowNumbers | src/pages/Category.tsx:153 | the rows are numbered 1, 2, … with no paging offset |
| CategoryScreen.CategoryScreenState.constructor | src/pages/Category.tsx:38-41 | nothing selected, header checkbox off, is-leaf false, modal closed |
| CategoryScreen.CategoryScreenState.SelectAll | src/pages/Category.tsx:53-60 | the header checkbox flips its flag; once set, the selection is [1, 2], and once cleared, it is empty |
| CategoryScreen.CategoryScreenState.CheckboxChange | src/pages/Category.tsx:62-68 | toggles one id in the selection |
| CategoryScreen.CategoryScreenState.SelectIsLeaf | src/pages/Category.tsx:231 | the picker sets is-leaf to whether the chosen text is "true" |
| CategoryScreen.CategoryScreenState.OpenModal | src/pages/Category.tsx:174 | a row's edit button opens the modal |
| CategoryScreen.CategoryScreenState.CloseModal | src/pages/Category.tsx:241 | "close" closes the modal |
| CategoryScreen.CategoryScreenState.Save | src/pages/Category.tsx:43-47 | "save" stores nothing and only closes the modal |
| CategoryScreen.SelectAllTwiceFromStart | src/pages/Category.tsx:53-60 | from a fresh screen, the header checkbox selects [1, 2], then clears the selection, and the flag ends off |
| SignIn.PatternHasShape | src/components/auth/SignInForm.tsx:28 | an address the email pattern accepts has a non-empty local part, then `@`, then a non-empty domain part that contains a `.` with text on both sides, none of it containing whitespace or `@` |
| SignIn.ShapeHasPattern | src/components/auth/SignInForm.tsx:28 | every address of that shape is accepted by the pattern |
| SignIn.EmailPatternMeaning | src/components/auth/SignInForm.tsx:28 | the email pattern accepts exactly the addresses of that shape |
| SignIn.FieldErrorsMeaning | src/components/auth/SignInForm.tsx:24-37 | a touched email gets "required" if empty and "invalid" if malformed; a touched password gets "required" if empty; untouched fields get no error |
| SignIn.SubmitEnabledMeaning | src/components/auth/SignInForm.tsx:146 | "sign in" is enabled exactly when both fields are non-empty and there are no errors |
| SignIn.RedirectTarget | src/components/auth/SignInForm.tsx:22 | after login the form goes to the page the user was sent away from, or to "/" |
| SignIn.SignInForm.constructor | src/components/auth/SignInForm.tsx:15-22 | empty fields, nothing touched, no errors, and the redirect target taken from the location |
| SignIn.SignInForm.Validate | src/components/auth/SignInForm.tsx:24-37 | validation stores the field errors for the given touched flags and reports whether there are none |
| SignIn.SignInForm.SetEmail | src/components/auth/SignInForm.tsx:40-42 | typing an email re-validates live |
| SignIn.SignInForm.SetPassword | src/components/auth/SignInForm.tsx:40-42 | typing a password re-validates live |
| SignIn.SignInForm.BlurEmail | src/components/auth/SignInForm.tsx:80 | leaving the email field marks it touched and re-validates |
| SignIn.SignInForm.BlurPassword | src/components/auth/SignInForm.tsx:101 | leaving the password field marks it touched and re-validates |
| SignIn.SignInForm.HandleLoginAsWritten | src/components/auth/SignInForm.tsx:44-57 | login is attempted exactly when validation with the touched flags of the current render succeeds |
| SignIn.SignInForm.HandleLogin | src/components/auth/SignInForm.tsx:44-57 | login is attempted exactly when the email is well formed and the password is non-empty |
| SignIn.StaleValidationAdmitsInvalidEmail | src/components/auth/SignInForm.tsx:46-48 | with only the password blurred, email "abc" and password "pw" pass validation and leave "sign in" enabled, although validation with every field touched rejects the email |

## Left out

- Network and storage. The HTTP client, the authentication token, the 401
  handling and the toast service are not part of this model. Requests and toasts
  are recorded as `Http.Effect` values, and replies are handler parameters.
- Asynchrony and React scheduling are not modelled: when effects run, the 500 ms
  search debounce timer, and replies arriving out of order. A re-fetch is an effect;
  its reply is applied by a separate `Pagination.Listing.Fetch` call.
- The `isSubmitting` flag only disables buttons while a request is in flight, so it
  is not modelled.
- The per-field `onChange` handlers of the edit forms (URL fields, gallery flag,
  specification code/name/value, book picker) only copy an input value into the
  draft, so they are not modelled. The draft is a parameter of `PrepareEdit`.
- Text parsing by `parseInt` is not modelled. The page box takes the parsed result
  as an `Option<int>`, with `None` for NaN.
- JavaScript number limits are not modelled. Ids and page numbers are unbounded
  integers, and `JSON.stringify`'s exponent form for numbers of 1e21 and above is
  not modelled.
- Http.DeleteOutcome: the check `res[0] == 0` is modelled on numeric array elements
  only. JavaScript's loose equality between strings and 0 is not modelled.
- Floating-point amounts and locale formatting are not modelled. Order totals are
  `real`, and date and currency display is left out.
- Pagination.RowNumberRoundTrip, RowNumbersDistinct and RowNumbersAcrossPages
  assume a page holds at most 8 rows, the page size the request asks for. The
  screens number every row the server returns, so the lemmas hold only when the
  server honours that size.
- Pagination.Listing.Fetch: a page reply always carries an integer page count.
  When the reply's `items` is an array but its `totalPages` is missing or not a
  number, the source stores the items and that value, with no notice
  (Image.tsx:100-102). The model does not represent that reply.
- Pagination.Listing.First, Prev, Next, Last, SelectPage, SetPageInput, GoToPage:
  these require `totalPages >= 1`, because the controls exist only then
  (Image.tsx:573).
- Category's `handleAddCategory` only shows its message with `alert`, so it is not
  modelled. The `console.log` in `handleSave` is left out; its closing of the modal
  is modelled.
- The sign-in form's `login` call and `navigate` are outside this model. Whether
  login succeeds is a parameter. The "show password" and "keep me logged in"
  toggles do not affect the data path.
- Three behaviours of the code worth noting, all modelled as the code has them:
  - closing the modal keeps the draft and the selection;
  - the selection is not pruned to the ids of a newly fetched page;
  - a new search keyword does not reset the page. So when the new list has fewer
    pages, the page can lie beyond the last one. Then every move button is enabled,
    and "previous" can land on another page that does not exist.

## Findings

| source | as written | input that shows it | evidently intended | confidence | as-written member | corrected member |
|---|---|---|---|---|---|---|
| src/components/auth/SignInForm.tsx:47-48 | `handleLogin` marks every field touched and then calls `validate`, but `validate` still reads the `touched` of the current render, so untouched fields go unchecked | fill in the password first, then type "abc" as the email and press Enter without leaving the field: no errors, "sign in" enabled, and login is called with "abc" | validate every field before calling login | medium; not executed | SignIn.SignInForm.HandleLoginAsWritten, SignIn.StaleValidationAdmitsInvalidEmail | SignIn.SignInForm.HandleLogin |
