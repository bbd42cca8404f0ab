# HomeSee rental client — a Dafny model

HomeSee is a WeChat mini-program for renting homes. Tenants sign in or register, browse and filter listings (`house-selection`), search rooms on a map and fill in missing coordinates (`map-search`), chat with an assistant that answers in HTML with links to tours and bookings (`smart-matching`), walk through rooms in a 360° panorama (`house-tour`, and the VR variant in `packageA`), book viewings (`packageB/appointment`) and follow them (`packageB/my-appointments`), see their appointments and shortcuts on the home tab, file repair requests (`maintenance`), edit their profile (`user-profile`) and post in a community feed (`community`). Every page talks to the backend through one request wrapper (`utils/request.js`).

This project models the logic of those pages in Dafny and proves what the pages promise about it. A page whose handlers update its data step by step is a `class` with a `data` field, a datatype holding the page's `data` object. Each handler is a `method`, and its `ensures` gives the whole new state. The pure helpers are functions, and lemmas prove their properties. Platform calls are parameters: a server reply, a stored user, a download status, `Math.random`, `Date`, `JSON.parse`, `toLocaleDateString`, `toFixed`. An asynchronous handler is split at its `await` into a `Begin…` method and an `End…` method. `Begin…` returns the request it would send. `End…` takes the reply.

Modules, one per source file plus shared helpers:

| module | file | models |
|---|---|---|
| `Wrappers`, `Text` | `common.dfy` | `Option`, and `Nullable` where `null` and `undefined` are printed; JavaScript string operations (`trim`, `includes`, `indexOf`, `replace`, `split(..)[0]`, `toLowerCase`, `padStart`, `String(n)`, `String(v)`, `parseInt`, falsy fallbacks on strings) |
| `Files`, `Calendar`, `Seqs` | `support.dfy` | file-server URL resolution, `YYYY-MM-DD` dates, `filter` and a stable `sort` |
| `Request` | `request.dfy` | `utils/request.js` |
| `Login` | `login.dfy` | `pages/login/login.js` |
| `Appointment` | `appointment.dfy` | `packageB/pages/appointment/appointment.js` |
| `MyAppointments` | `my_appointments.dfy` | `packageB/pages/my-appointments/my-appointments.js` |
| `Home` | `home.dfy` | `pages/home/home.js` |
| `Maintenance` | `maintenance.dfy` | `pages/maintenance/maintenance.js` |
| `UserProfile` | `user_profile.dfy` | `pages/user-profile/user-profile.js` |
| `Panorama`, `HouseTour` | `panorama.dfy`, `house_tour.dfy` | the scene catalog and viewer of `pages/house-tour/house-tour.js` |
| `HouseTourVr` | `house_tour_vr.dfy` | `packageA/pages/house-tour/house-tour.js` |
| `Markup`, `SmartMatching` | `markup.dfy`, `smart_matching.dfy` | `pages/smart-matching/smart-matching.js` |
| `MapSearch` | `map_search.dfy` | `pages/map-search/map-search.js` |
| `HouseSelection` | `house_selection.dfy` | `pages/house-selection/house-selection.js` |
| `Community` | `community.dfy` | the feed, likes, comments, user cache and private chats of `pages/community/community.js` |

Three.js objects are opaque tokens. The scene graph is a sequence of meshes, and the sphere is an optional reference to one of them. Touch coordinates, longitude and latitude are `real`.

## Model

| member | source | states |
|---|---|---|
| Text.Or | utils/request.js:7 | JavaScript's falsy fallback: a non-empty string is kept, a missing or empty one gives the fallback |
| Text.IndexFrom | packageA/pages/house-tour/house-tour.js:179 | the first occurrence at or after a position, and no occurrence is skipped |
| Text.IndexOf | packageA/pages/house-tour/house-tour.js:179 | the first occurrence of the pattern, or none exactly when it never occurs |
| Text.CharIndex | pages/user-profile/user-profile.js:217 | the first index of the character, or none exactly when it does not occur |
| Text.FirstPiece | pages/user-profile/user-profile.js:217 | `split(sep)[0]`: a prefix without the separator, cut exactly at its first occurrence |
| Text.ReplaceFirst | packageA/pages/house-tour/house-tour.js:179 | a string without the pattern is left unchanged; otherwise the first occurrence (as IndexOf finds it) is replaced by the replacement and the rest kept |
| Text.ToLower | pages/map-search/map-search.js:83-87 | same length, each character folded on its own |
| Text.TrimStart | packageB/pages/appointment/appointment.js:107-108 | a suffix that does not start with white space, having dropped only white space |
| Text.TrimEnd | packageB/pages/appointment/appointment.js:107-108 | a prefix that does not end with white space, having dropped only white space |
| Text.Trim | packageB/pages/appointment/appointment.js:107-108 | the infix of the string that neither starts nor ends with white space and has only white space before and after it |
| Text.BlankIffAllWhitespace | packageB/pages/appointment/appointment.js:107-108 | a string trims to nothing exactly when it is all white space |
| Text.DigitsOf | pages/house-selection/house-selection.js:274 | `replace(/\D/g, '')` leaves only digits and never lengthens the string; that it keeps every digit in order is Seqs.DigitsOfIsFilter |
| Text.DigitsOfAllDigits | pages/house-selection/house-selection.js:274 | a string of digits is left as it is |
| Text.DigitsOfAppend | pages/house-selection/house-selection.js:274 | removing non-digits distributes over concatenation |
| Text.DigitsValueAppend | pages/login/login.js:198 | the value of joined digit strings is the head shifted past the tail plus the tail |
| Text.DigitsValueBound | pages/login/login.js:198 | n digits spell a number below 10^n |
| Text.NatToString | packageB/pages/my-appointments/my-appointments.js:142 | `String(n)` is a non-empty string of digits |
| Text.NatToStringValue | packageB/pages/my-appointments/my-appointments.js:142 | `String(n)` reads back as n |
| Text.NatToStringLength | packageB/pages/my-appointments/my-appointments.js:142 | numbers below 10, 100, 1000 and 10000 have one, two, three and four digits |
| Text.PadStart2 | packageB/pages/my-appointments/my-appointments.js:142 | a string shorter than two gets '0' characters on the left up to length two and keeps itself as the tail; a longer one is unchanged |
| Text.LongestDigitPrefix | packageB/pages/appointment/appointment.js:139 | the longest prefix of digits: a prefix, all digits, followed by a non-digit or the end |
| Text.ParseIntOfDigits | packageB/pages/appointment/appointment.js:143 | `parseInt` of a plain digit string is the number it spells |
| Text.ParseIntOfHex | pages/house-selection/house-selection.js:87 | a radix-less `parseInt` reads `0x` followed by hexadecimal digits as the number they spell in base 16 |
| Text.LongestDigitsOfDigits | packageB/pages/appointment/appointment.js:143 | a string of digits is its own longest digit prefix |
| Files.Resolve | pages/home/home.js:103-112 | a missing name gives the fallback; an `http` name is kept; any other name is put after the file server's download path |
| Files.ResolveIdempotent | pages/community/community.js:690-694 | a resolved name is an `http` URL and resolving it again changes nothing |
| Files.ResolveEndsWithName | pages/home/home.js:107-111 | the stored name can be read back from the end of its URL |
| Calendar.TwoDigits | packageB/pages/my-appointments/my-appointments.js:142 | a number from 1 to 99 pads to two digits that read back as it |
| Calendar.YmdReadsBack | packageB/pages/my-appointments/my-appointments.js:139-143 | a valid date renders as ten characters whose year, month and day fields read back as the year, the 1-based month and the day |
| Calendar.Layout | packageB/pages/my-appointments/my-appointments.js:142 | four, two and two characters joined by dashes sit at their fixed positions |
| Seqs.Filter | pages/community/community.js:530-532 | `filter` keeps only passing elements, loses none that pass and adds nothing |
| Seqs.SubsequenceTrans | pages/map-search/map-search.js:82-106 | deleting elements twice is deleting elements once |
| Seqs.FilterIsSubsequence | pages/map-search/map-search.js:82-106 | filtering keeps the elements in their order |
| Seqs.FilterAllPass | pages/map-search/map-search.js:82-106 | filtering a list whose elements all pass gives the list back |
| Seqs.FilterAppend | pages/map-search/map-search.js:82-106 | filtering distributes over concatenation |
| Seqs.Insert | pages/community/community.js:535 | inserting into a sorted list keeps it sorted and adds exactly that element |
| Seqs.SortBy | pages/community/community.js:535 | the result is sorted by the key and is a permutation of the input |
| Seqs.DigitsOfIsFilter | pages/house-selection/house-selection.js:274 | removing the non-digits is filtering the digits: every digit of the string is kept, in order |
| Seqs.InsertKeyClass | pages/community/community.js:535 | inserting an element places it in front of the other elements of its key class and leaves their order alone |
| Seqs.SortByStable | pages/community/community.js:535 | the sort is stable: the elements with any one key come out in the order they went in, so posts with equal like counts keep their feed order |
| Request.GetToken | utils/request.js:4-12 | the token is non-empty exactly when storage is readable, holds a user and that user has a token, and then it is that token |
| Request.FullUrl | utils/request.js:56-59 | the result always starts with `http`; a full URL is kept, a path is appended to the API server address |
| Request.Separator | utils/request.js:63 | one character: `&` exactly when the URL already has a `?`, `?` otherwise |
| Request.BuildHeaders | utils/request.js:46-53 | the headers are the caller's plus `Content-Type` (JSON unless the caller set it) and, with a token, `Authorization: Bearer <token>` replacing the caller's; every other caller header is kept, the caller's `Authorization` too when there is no token |
| Request.BuildUrl | utils/request.js:55-65 | the URL is the resolved URL, followed by `_t=<now>` after the right separator exactly when the method is `GET` and `noCache` is not `false` |
| Request.Prepare | utils/request.js:43-72 | the `wx.request` arguments: those headers (a caller `Authorization` kept when there is no token) and URL, the method (GET when left out), the data (`{}` when left out) and the timeout (10000 when falsy) |
| Request.SettleSpec | utils/request.js:73-104 | a transport failure is passed on; an expired session (status 401 or body code 401) is reported as expired even on a 2xx status; otherwise a 2xx reply resolves with its body, and any other reply is rejected with the body's message or `请求失败: <status>` |
| Request.ErrorToastSpec | utils/request.js:20-38 | a `timeout` message shows 请求超时 ahead of a `fail` message's 网络错误; every other failure shows no toast |
| Request.ErrorToast | utils/request.js:23-35 | a toast is shown only for a non-empty error message |
| Request.Shortcut | utils/request.js:143-157 | header, `noCache` and timeout are the caller's options |
| Request.ShortcutSpec | utils/request.js:143-157 | the verb, URL and data of a shortcut hold unless the caller's options override each of them |
| Request.ShortcutBusts | utils/request.js:143-157 | `get` adds the timestamp unless the caller turns `noCache` off or changes the method; `post`, `put` and `del` add it only when the caller sets the method to `GET` |
| Request.Client.constructor | utils/request.js:4-7 | the client starts with the given storage |
| Request.Client.Send | utils/request.js:41-107 | the request is exactly what PreparedFor fixes for the options and the stored token (headers, `_t` suffix, method, data, timeout), it settles as the reply says, and an expired session removes the stored user and nothing else |
| Login.WithField | pages/login/login.js:42-49 | the changed input takes the typed value and every other input keeps its own |
| Login.ValidPhoneRange | pages/login/login.js:198 | the phone pattern accepts exactly the eleven-digit strings whose value lies in [13000000000, 20000000000) |
| Login.PhoneValue | pages/login/login.js:211 | an eleven-digit number lies from 13000000000 up to 20000000000 exactly when its first two digits read 13 to 19, the range the pattern's `1[3-9]` selects |
| Login.Scale | pages/login/login.js:198 | a leading pair of digits h puts an eleven-digit number in that range exactly when 13 <= h <= 19 |
| Login.ValidationSpec | pages/login/login.js:188-223 | signing in passes exactly with a phone, a password and a phone that fits the pattern; registering passes exactly with all five fields, such a phone and a password of at least six characters; each of the four messages is given exactly when its check is the first to fail |
| Login.ValidFormHasMobileNumber | pages/login/login.js:188-223 | a form that passes carries an eleven-digit number from 13000000000 up to 20000000000 |
| Login.Redirect | pages/login/login.js:226-240 | landlords (type 2) and administrators (type 3) go to their own tab, every other type to the home tab |
| Login.Resume | pages/login/login.js:18-24 | a stored user with an id is redirected straight to their tab, and only then |
| Login.LoginPage.constructor | pages/login/login.js:5-16 | sign-in mode, not loading, no message, empty form |
| Login.LoginPage.ToggleForm | pages/login/login.js:27-39 | the mode flips, the message and every field are cleared |
| Login.LoginPage.OnInputChange | pages/login/login.js:42-49 | only the named field of the form changes |
| Login.LoginPage.BeginSubmit | pages/login/login.js:82-107 | an invalid form shows its message and sends nothing; a valid sign-in sends phone and password; a registration whose passwords differ stops with its own message; otherwise the registration is sent; loading while a request is out |
| Login.LoginPage.EndSignIn | pages/login/login.js:102-138 | success stores the user and redirects by user type; a failure shows the reply's message or 登录失败, a rejection its message or the network error, and loading stops |
| Login.LoginPage.EndSignUp | pages/login/login.js:141-185 | success returns to sign-in mode with a cleared form and the 注册成功 message; a failure shows the reply's message or 注册失败, a rejection the network error message |
| Appointment.ValidationSpec | packageB/pages/appointment/appointment.js:101-111 | the form passes exactly when the four pickers are set, name and phone are not blank once trimmed and the untrimmed phone fits the mobile pattern; each message is given exactly when its check is the first to fail |
| Appointment.PaddedPhoneRejected | packageB/pages/appointment/appointment.js:108-109 | a phone with a leading space passes the blank check but is rejected by the pattern |
| Appointment.OrNull | packageB/pages/appointment/appointment.js:142-145 | an empty optional text is sent as `null`, any other as it is |
| Appointment.PayloadSpec | packageB/pages/appointment/appointment.js:134-146 | the body carries the room, the user id, the preferred date and time slot, name and phone as typed, `null` exactly for the empty optional texts, and the tenant count as its number |
| Appointment.ChoiceSentAsNumber | packageB/pages/appointment/appointment.js:139 | each kind of viewing the picker offers is sent as the number 1 or 2 |
| Appointment.PrefillName | packageB/pages/appointment/appointment.js:64 | the contact name is the real name, else the username, else empty |
| Appointment.AppointmentPage.constructor | packageB/pages/appointment/appointment.js:4-37 | the initial data: no house, no room, on-site viewing chosen, every input empty |
| Appointment.AppointmentPage.Prefill | packageB/pages/appointment/appointment.js:60-68 | a stored user fills the contact name and phone; without one nothing changes |
| Appointment.AppointmentPage.OnLoad | packageB/pages/appointment/appointment.js:38-58 | without a house id the page is unchanged; with one the house id and today's date are set, the room is requested and the contact prefilled |
| Appointment.AppointmentPage.EndLoadHouseInfo | packageB/pages/appointment/appointment.js:70-88 | a successful reply's room is kept; loading ends on every reply |
| Appointment.AppointmentPage.OnInput | packageB/pages/appointment/appointment.js:91-99 | each text input or date picker sets only its own field |
| Appointment.AppointmentPage.OnTimeChange | packageB/pages/appointment/appointment.js:92 | the time slot becomes the picked one |
| Appointment.AppointmentPage.OnTypeChange | packageB/pages/appointment/appointment.js:93 | the kind of viewing becomes the picked one's value |
| Appointment.AppointmentPage.BeginSubmit | packageB/pages/appointment/appointment.js:113-146 | an invalid form reports its message and a missing user asks for sign-in, both with the page unchanged; otherwise the body is built from the form and the page is submitting |
| Appointment.AppointmentPage.EndSubmit | packageB/pages/appointment/appointment.js:148-167 | success opens the modal with the appointment number; a refusal, including a non-null falsy body, toasts its message or 预约失败; a rejection or a `null` body, whose message cannot be read, toasts 提交失败; submitting always ends |
| MyAppointments.BadgesSpec | packageB/pages/my-appointments/my-appointments.js:13-29 | both maps cover exactly the statuses 0 to 5 with a non-empty text, only appointment badges carry a class, and any other status falls back to 未知 in grey |
| MyAppointments.TypeText | packageB/pages/my-appointments/my-appointments.js:80 | 现场看房 exactly for type 1, 视频看房 otherwise |
| MyAppointments.PaymentMethod | packageB/pages/my-appointments/my-appointments.js:105 | cycles 0 to 3 name their payment method, any other gives 未知 |
| MyAppointments.FormatDateSpec | packageB/pages/my-appointments/my-appointments.js:139-143 | only a missing date reads `-`; a valid date reads back as its year, 1-based month and day |
| MyAppointments.ShowAll | packageB/pages/my-appointments/my-appointments.js:77-82 | every appointment, in order, with its badge, kind and date |
| MyAppointments.FindActiveSpec | packageB/pages/my-appointments/my-appointments.js:100 | the lease is the first contract that is signed or running; none is found exactly when no contract is |
| MyAppointments.MyAppointmentsPage.constructor | packageB/pages/my-appointments/my-appointments.js:5-11 | no user, no lease, no room, no appointments, loading |
| MyAppointments.MyAppointmentsPage.BeginFetch | packageB/pages/my-appointments/my-appointments.js:58-62 | loading starts, and with a user both the appointments and the contracts are requested |
| MyAppointments.MyAppointmentsPage.EndFetch | packageB/pages/my-appointments/my-appointments.js:63-66 | loading ends once both requests have settled |
| MyAppointments.MyAppointmentsPage.CheckLogin | packageB/pages/my-appointments/my-appointments.js:48-56 | a stored user is kept and the appointment and lease URLs for their id are requested; without one loading stops and nothing is requested |
| MyAppointments.MyAppointmentsPage.OnShow | packageB/pages/my-appointments/my-appointments.js:38-42 | a page that knows its user requests the appointment and lease URLs for that id again; otherwise nothing changes |
| MyAppointments.MyAppointmentsPage.EndAppointments | packageB/pages/my-appointments/my-appointments.js:69-88 | a successful reply replaces the list (empty when it has none); anything else leaves the page as it was |
| MyAppointments.MyAppointmentsPage.EndLease | packageB/pages/my-appointments/my-appointments.js:90-123 | a reply sets the lease to its first active contract or clears it, and the lease's room is requested exactly when it names one; a failed request changes nothing |
| MyAppointments.MyAppointmentsPage.EndHouseDetails | packageB/pages/my-appointments/my-appointments.js:125-137 | a successful reply with a room sets the house details; anything else changes nothing |
| Home.DisplayName | pages/home/home.js:87 | never empty: the real name, else the username, else 用户 |
| Home.AvatarUrlSpec | pages/home/home.js:103-112 | without a user or an avatar the bundled default image; an avatar is shown from an `http` URL that ends in the stored name |
| Home.StatusMapsSpec | pages/home/home.js:228-250 | text and class maps know exactly the statuses 0 to 5, give each its own entry, and send every other status to the unknown entry |
| Home.TypeText | pages/home/home.js:214 | 现场看房 exactly for type 1, 视频看房 otherwise |
| Home.FormatTime | pages/home/home.js:252-256 | 未设置 for a missing time, else the locale rendering of that time |
| Home.ExtractListSpec | pages/home/home.js:200-208 | the list comes from the reply itself, its `data` or its `content`, whichever is first an array; empty when none is |
| Home.ShowAll | pages/home/home.js:210-216 | every appointment, in order, with its status text, class, kind and time |
| Home.FeatureNavigationSpec | pages/home/home.js:178-188 | an empty page does nothing; the URL names the page twice; exactly the three tab pages are switched to, others opened |
| Home.HomePage.constructor | pages/home/home.js:4-12 | signed out, menu closed, not scrolled, no appointments, default avatar |
| Home.HomePage.CheckLoginStatus | pages/home/home.js:82-101 | a stored user signs the page in with their name and avatar and requests their appointments; without one the page is signed out and its list cleared |
| Home.HomePage.EndFetchAppointments | pages/home/home.js:196-225 | a reply replaces the list with the processed appointments; loading always ends |
| Home.HomePage.ToggleUserMenu | pages/home/home.js:114-120 | only a signed-in user's menu opens or closes |
| Home.HomePage.CloseUserMenu | pages/home/home.js:122-126 | the menu is closed and nothing else changes |
| Home.HomePage.Logout | pages/home/home.js:137-150 | signed out, menu closed, list cleared; name and avatar left as they were |
| Home.HomePage.OnPageScroll | pages/home/home.js:76-80 | the header is in its scrolled style exactly past 50 pixels |
| Maintenance.StatusMapsSpec | pages/maintenance/maintenance.js:9-18 | text and colour maps know exactly the statuses 0 to 2, give each its own entry, and fall back to 未知 in grey together |
| Maintenance.FormatDateSpec | pages/maintenance/maintenance.js:80-84 | only a missing time gives the empty string; a valid date reads back as its year, 1-based month and day |
| Maintenance.ShowAll | pages/maintenance/maintenance.js:62-67 | every request, in order, with its status text, colour and time |
| Maintenance.Extract | pages/maintenance/maintenance.js:59 | an array reply is the list, an object's `content` array is the list and an absent `content` the empty list (so is a non-null falsy reply's); a `null` reply or a non-array `content` fails |
| Maintenance.MaintenancePage.constructor | pages/maintenance/maintenance.js:5-19 | no requests, not loading, no user |
| Maintenance.MaintenancePage.BeginLoad | pages/maintenance/maintenance.js:48-57 | a load under way changes nothing; otherwise the user's requests are asked for, and without a user the load fails at once |
| Maintenance.MaintenancePage.EndLoad | pages/maintenance/maintenance.js:59-77 | a usable reply replaces the list; a failure shows 加载失败; loading always ends |
| Maintenance.MaintenancePage.CheckLogin | pages/maintenance/maintenance.js:31-46 | a stored user is kept and their requests loaded; without one the visitor is asked to sign in and nothing changes |
| Maintenance.MaintenancePage.OnShow | pages/maintenance/maintenance.js:25-29 | a page that knows its user reloads unless a load is under way |
| UserProfile.OrEmpty | pages/user-profile/user-profile.js:87-101 | a truthy value is kept, anything falsy becomes the empty string |
| UserProfile.OrZero | pages/user-profile/user-profile.js:89 | a truthy gender is kept, anything falsy becomes 0 |
| UserProfile.FormatDateForInput | pages/user-profile/user-profile.js:215-218 | the part of the date before its first `T`: a prefix without `T`, cut exactly at the first `T` |
| UserProfile.FormatDateForInputIdempotent | pages/user-profile/user-profile.js:215-218 | cutting a date that is already cut changes nothing |
| UserProfile.EditFormSpec | pages/user-profile/user-profile.js:81-104 | the form has exactly the fifteen fields and none is `null` or `undefined`; truthy texts are copied, falsy ones are empty, a falsy gender is 0, a non-empty birthday string is cut to its date part and anything else is empty |
| UserProfile.SpecialKeys | pages/user-profile/user-profile.js:87-101 | gender and birthday are not among the thirteen text fields |
| UserProfile.TextFieldStable | pages/user-profile/user-profile.js:87-101 | rebuilding a text field from a record that already holds the form gives the same value |
| UserProfile.EditFormIdempotent | pages/user-profile/user-profile.js:81-104 | building the form from a record that already holds the form gives the same form |
| UserProfile.MergeSpec | pages/user-profile/user-profile.js:143 | `{...user, ...res.user}` has both sets of fields; the reply's win and the user's other fields stay |
| UserProfile.UserProfilePage.constructor | pages/user-profile/user-profile.js:5-44 | no user, loading, not editing, not saving, an empty form |
| UserProfile.UserProfilePage.InitEditForm | pages/user-profile/user-profile.js:81-104 | with a user the form is rebuilt from it; without one nothing changes |
| UserProfile.UserProfilePage.BeginFetch | pages/user-profile/user-profile.js:50-60 | without a stored user the page goes to sign-in and stops loading; otherwise the user is requested by id, a `null` id printed as `null` and an absent one as `undefined` |
| UserProfile.UserProfilePage.EndFetch | pages/user-profile/user-profile.js:60-77 | success shows and stores the user and rebuilds the form; a refusal or a rejection toasts; loading always ends |
| UserProfile.UserProfilePage.StartEditField | pages/user-profile/user-profile.js:107-113 | editing starts on the named field |
| UserProfile.UserProfilePage.HandleInput | pages/user-profile/user-profile.js:116-122 | only the named form field takes the typed text |
| UserProfile.UserProfilePage.CancelEdit | pages/user-profile/user-profile.js:125-131 | editing stops and the form is rebuilt from the user, dropping typed changes |
| UserProfile.UserProfilePage.BeginSave | pages/user-profile/user-profile.js:134-138 | the form is sent to the user's update address (a `null` id printed as `null`, an absent one as `undefined`) while saving; without a user the save fails at once |
| UserProfile.UserProfilePage.EndSave | pages/user-profile/user-profile.js:138-157 | success merges the reply over the user, stores it, stops editing and rebuilds the form; a refusal toasts its message or 保存失败; saving always ends |
| Panorama.ClampLat | pages/house-tour/house-tour.js:203 | the latitude is kept within [-85, 85]: unchanged inside, the nearer bound outside |
| Panorama.TextureUrl | pages/house-tour/house-tour.js:267-273 | the thumbnail wins, then the URL; with neither, one of the default textures |
| Panorama.FindMain | pages/house-tour/house-tour.js:245 | `findIndex` of the first scene with `is_main === 1`, none before it, or none at all |
| Panorama.InitialIndex | pages/house-tour/house-tour.js:245-247 | the main scene's index, or 0 when no scene is main; within the catalog when it is not empty |
| Panorama.DemoCatalog | pages/house-tour/house-tour.js:219-235 | the three demo scenes show the given images, without thumbnails |
| Panorama.Remove | pages/house-tour/house-tour.js:286 | `scene.remove(mesh)` leaves exactly the other meshes |
| Panorama.RemoveOnly | pages/house-tour/house-tour.js:286 | removing the only mesh leaves the scene empty |
| HouseTour.TourPage.constructor | pages/house-tour/house-tour.js:6-47 | the initial data: empty house id, no catalog, index 0, loading, selector shown; no Three.js, no sphere, no drag |
| HouseTour.TourPage.OnLoad | pages/house-tour/house-tour.js:49-63 | without `id` or `houseId` nothing changes; without a canvas the error is shown; otherwise Three.js is set up with a wireframe sphere, the demo catalog installed and its first image requested; one sphere at most in the scene |
| HouseTour.TourPage.InitThree | pages/house-tour/house-tour.js:130-176 | a fresh scene holding only a new wireframe sphere, the drag state reset, the data unchanged |
| HouseTour.TourPage.LoadHouseInfo | pages/house-tour/house-tour.js:99-128 | the demo catalog is installed at index 0 and its first scene loaded |
| HouseTour.TourPage.CreateDemoScenes | pages/house-tour/house-tour.js:219-235 | the catalog becomes the demo catalog at index 0 and, with Three.js, its first scene is loaded |
| HouseTour.TourPage.SetInitialScene | pages/house-tour/house-tour.js:237-250 | the whole new data in each case: an empty catalog is replaced by the demo one exactly as createDemoScenes does; otherwise the main scene (or the first) becomes the index, and with Three.js it is current, loading is on and its texture requested; scene and drag state are untouched |
| HouseTour.TourPage.LoadScene | pages/house-tour/house-tour.js:252-279 | without Three.js nothing changes; otherwise the entry becomes current, loading is set, and its texture URL is requested |
| HouseTour.TourPage.OnImageLoad | pages/house-tour/house-tour.js:281-323 | the old sphere leaves the scene and a sphere with the loaded texture becomes its only mesh, the view resets and loading ends; after unload the callback aborts |
| HouseTour.TourPage.OnImageError | pages/house-tour/house-tour.js:325-333 | a failed image falls back to the flat-coloured sphere |
| HouseTour.TourPage.LoadDefaultTexture | pages/house-tour/house-tour.js:337-365 | without Three.js nothing changes; otherwise a flat blue sphere replaces the old one and loading ends |
| HouseTour.TourPage.OnSceneSelect | pages/house-tour/house-tour.js:415-429 | the current index or one outside the catalog changes nothing; another index becomes current and its scene is loaded |
| HouseTour.TourPage.OnRetry | pages/house-tour/house-tour.js:396-412 | with a house id the error clears, the demo catalog is reloaded at index 0 and, with Three.js up, its first texture is requested; without one nothing changes and nothing is requested |
| HouseTour.TourPage.OnTouchStart | pages/house-tour/house-tour.js:368-374 | dragging starts at the touch point |
| HouseTour.TourPage.OnTouchMove | pages/house-tour/house-tour.js:376-389 | while dragging, longitude falls by a tenth of the horizontal move and latitude rises by a tenth of the vertical move; otherwise nothing changes |
| HouseTour.TourPage.OnTouchEnd | pages/house-tour/house-tour.js:391-393 | dragging stops and nothing else changes |
| HouseTour.TourPage.UpdateCameraRotation | pages/house-tour/house-tour.js:198-217 | with Three.js the latitude is clamped to [-85, 85]; without it nothing changes |
| HouseTour.TourPage.OnUnload | pages/house-tour/house-tour.js:65-80 | the scene and renderer are dropped, the sphere reference kept |
| HouseTourVr.EnsureHttpsUpgrades | packageA/pages/house-tour/house-tour.js:176-180 | a plain `http://` URL is returned with the same address under `https://` |
| HouseTourVr.EnsureHttpsKeepsSecure | packageA/pages/house-tour/house-tour.js:176-180 | an `https://` URL stays `https://`, and one that never mentions `http://` is returned unchanged |
| HouseTourVr.EnsureHttpsPutsPathOnHost | packageA/pages/house-tour/house-tour.js:181-185 | a path that is not a URL is joined to the file host by exactly one slash, whether or not it starts with one, and ends the URL |
| HouseTourVr.EnsureHttps | packageA/pages/house-tour/house-tour.js:176-186 | a falsy URL gives the empty string; a path that is not a URL is put on the file host |
| HouseTourVr.MapScenes | packageA/pages/house-tour/house-tour.js:143-152 | the backend scenes map one for one and in order to catalog entries, and the mapping fails exactly when some scene has no id |
| HouseTourVr.VrCatalog | packageA/pages/house-tour/house-tour.js:142-172 | a successful non-empty scene list becomes the catalog one for one; otherwise, or when mapping throws, the demo catalog; never empty |
| HouseTourVr.TagLength | packageA/pages/house-tour/house-tour.js:554 | a `<[^>]+>` tag at the start is at least three characters long, or absent |
| HouseTourVr.RemoveTags | packageA/pages/house-tour/house-tour.js:554 | removing tags only keeps characters of the text, and text that does not start with `<` keeps its first character; TagsKeepPlain, NoCloseKeepsAll and TagRemoved pin the result |
| HouseTourVr.RemoveTagsLeavesNoTag | packageA/pages/house-tour/house-tour.js:554 | after removing tags none is left |
| HouseTourVr.NoTagSlice | packageA/pages/house-tour/house-tour.js:554-555 | a part of tag-free text is tag-free |
| HouseTourVr.StripReplyIsClean | packageA/pages/house-tour/house-tour.js:550-555 | the shown reply holds no tag and neither starts nor ends with white space |
| HouseTourVr.TagsKeepPlain | packageA/pages/house-tour/house-tour.js:554 | text without `<` in front of the rest is kept as it is |
| HouseTourVr.NoCloseKeepsAll | packageA/pages/house-tour/house-tour.js:554 | text without `>` holds no tag and is kept whole, every `<` included |
| HouseTourVr.TagRemoved | packageA/pages/house-tour/house-tour.js:554 | a whole `<[^>]+>` tag in front of the rest is removed, and nothing else |
| HouseTourVr.StripReplyOfBreak | packageA/pages/house-tour/house-tour.js:550-555 | a `<br>` between two pieces of plain text is shown as a newline with both pieces kept, then trimmed |
| HouseTourVr.InfixKeepsNoTag | packageA/pages/house-tour/house-tour.js:555 | any piece of tag-free text, the trimmed reply among them, is tag-free |
| HouseTourVr.StripReplyOfPlainText | packageA/pages/house-tour/house-tour.js:550-555 | a reply without markup is shown as it came, only trimmed |
| HouseTourVr.TourVrPage.constructor | packageA/pages/house-tour/house-tour.js:6-54 | the initial data: empty house id, no catalog, loading, selector hidden, empty chat; no Three.js |
| HouseTourVr.TourVrPage.OnLoad | packageA/pages/house-tour/house-tour.js:56-73 | the whole new data and request in each branch: the house id is `id` or else `houseId`; without a canvas the error is shown; with one Three.js is set up and without an id the demo catalog is shown with loading off, a failed room lookup only stops loading, and otherwise the scenes are loaded as ScenesLoaded says and the first texture requested |
| HouseTourVr.TourVrPage.InitThree | packageA/pages/house-tour/house-tour.js:188-231 | a fresh empty scene and a reset drag state, data unchanged |
| HouseTourVr.TourVrPage.LoadHouseInfo | packageA/pages/house-tour/house-tour.js:109-132 | a failed room lookup only stops loading; otherwise the data becomes ScenesLoaded of the old data and the first texture is requested once Three.js is set up |
| HouseTourVr.ScenesLoaded | packageA/pages/house-tour/house-tour.js:146-172 | after loading the scenes the catalog is the VR catalog at index 0, house id and error unchanged, and with Three.js its first entry is current and loading is on |
| HouseTourVr.TourVrPage.LoadVrScenes | packageA/pages/house-tour/house-tour.js:135-173 | the data becomes ScenesLoaded of the old data (the VR catalog at index 0, the scene selector on the demo path, loading on the backend path) and the first texture is requested once Three.js is set up; scene and drag state are untouched |
| HouseTourVr.TourVrPage.CreateDemoScenes | packageA/pages/house-tour/house-tour.js:351-367 | the catalog becomes the demo catalog at index 0 and, with Three.js, its first scene is loaded |
| HouseTourVr.TourVrPage.LoadScene | packageA/pages/house-tour/house-tour.js:233-258 | without Three.js nothing changes; otherwise the entry becomes current, loading is set, and its texture URL is downloaded |
| HouseTourVr.TourVrPage.OnDownload | packageA/pages/house-tour/house-tour.js:260-316 | decoding starts exactly on status 200; any other status or a failed download falls back, which only stops loading |
| HouseTourVr.TourVrPage.OnImageLoad | packageA/pages/house-tour/house-tour.js:268-299 | the old sphere leaves the scene and the textured sphere becomes its only mesh, the view resets and loading ends; after unload the callback aborts |
| HouseTourVr.TourVrPage.OnImageError | packageA/pages/house-tour/house-tour.js:300-303 | a failed decode only stops loading |
| HouseTourVr.TourVrPage.LoadDefaultTexture | packageA/pages/house-tour/house-tour.js:324-327 | only loading is cleared; the scene keeps what it shows |
| HouseTourVr.TourVrPage.OnSceneSelect | packageA/pages/house-tour/house-tour.js:442-457 | the current index or one outside the catalog changes nothing; another index becomes current and its scene is loaded |
| HouseTourVr.TourVrPage.OnRetry | packageA/pages/house-tour/house-tour.js:413-429 | with a house id, loading restarts with the error cleared and the house is fetched again, ending as `LoadHouseInfo` does; without one, `onLoad` runs again on the page's options and every branch of its outcome is stated |
| HouseTourVr.TourVrPage.OnTouchStart | packageA/pages/house-tour/house-tour.js:385-391 | dragging starts at the touch point |
| HouseTourVr.TourVrPage.OnTouchMove | packageA/pages/house-tour/house-tour.js:393-406 | while dragging, longitude falls by a tenth of the horizontal move and latitude rises by a tenth of the vertical move; otherwise nothing changes |
| HouseTourVr.TourVrPage.OnTouchEnd | packageA/pages/house-tour/house-tour.js:408-410 | dragging stops and nothing else changes |
| HouseTourVr.TourVrPage.UpdateCameraRotation | packageA/pages/house-tour/house-tour.js:330-349 | with Three.js the latitude is clamped to [-85, 85]; without it nothing changes |
| HouseTourVr.TourVrPage.OnUnload | packageA/pages/house-tour/house-tour.js:75-90 | the scene and renderer are dropped, the sphere reference kept |
| HouseTourVr.TourVrPage.OnInput | packageA/pages/house-tour/house-tour.js:467-471 | the typed text becomes the chat input that `sendMessage` reads; nothing else changes |
| HouseTourVr.TourVrPage.SendMessage | packageA/pages/house-tour/house-tour.js:513-586 | blank input or a pending answer changes nothing; otherwise the trimmed question then the reply (the stripped answer, the echo for an unsuccessful reply, or the apology) are appended, the input cleared, loading ended and the view scrolled to the last message |
| SmartMatching.ActionCloseAt | pages/smart-matching/smart-matching.js:200 | the `\s*-->` tail of the action pattern, when it matches, ends just after a `-->` |
| SmartMatching.ActionBodyFrom | pages/smart-matching/smart-matching.js:200 | the lazy `{.*?}` body followed by the close ends just after a `-->` |
| SmartMatching.ActionPayloadFrom | pages/smart-matching/smart-matching.js:200 | the payload part of the action pattern ends just after a `-->` |
| SmartMatching.ActionKeywordFrom | pages/smart-matching/smart-matching.js:200 | the `ACTION:` part of the pattern ends just after a `-->` |
| SmartMatching.ActionAt | pages/smart-matching/smart-matching.js:200 | an action comment starting at `i` begins with `<!--` and ends just after `-->` |
| SmartMatching.FindAction | pages/smart-matching/smart-matching.js:200-201 | the leftmost action comment at or after a position, as its start and end |
| SmartMatching.RemoveAction | pages/smart-matching/smart-matching.js:199-210 | without an action comment the text is unchanged; otherwise exactly the first one (from `<!--` to `-->`) is cut out |
| SmartMatching.NoActionWithoutComment | pages/smart-matching/smart-matching.js:199-209 | text without a `<!` pair holds no action comment |
| SmartMatching.PreprocessOfPlainText | pages/smart-matching/smart-matching.js:196-217 | text without markup or line breaks comes through the preprocessing unchanged |
| SmartMatching.PreprocessOfBreak | pages/smart-matching/smart-matching.js:212-217 | a `<br>` between two lines of plain text becomes exactly one newline |
| SmartMatching.LazyUntil | pages/smart-matching/smart-matching.js:221 | a lazy `(.*?)` stops at the first place the closing tag occurs |
| SmartMatching.CharFrom | pages/smart-matching/smart-matching.js:221 | the first index at or after a position holding the character, none before it |
| SmartMatching.StrongAt | pages/smart-matching/smart-matching.js:221 | a `<strong>…</strong>` match at `i` starts at `i` and ends within the text |
| SmartMatching.AnchorAt | pages/smart-matching/smart-matching.js:221 | an `<a href="…">…</a>` match at `i` starts at `i` and ends within the text |
| SmartMatching.MatchAt | pages/smart-matching/smart-matching.js:221 | the tag pattern at `i`, the `<strong>` alternative tried first, starts at `i` and is non-empty |
| SmartMatching.Hits | pages/smart-matching/smart-matching.js:221-226 | the table of pattern outcomes at every position of the text |
| SmartMatching.NextMatch | pages/smart-matching/smart-matching.js:226 | `exec` from `lastIndex`: the match at the first position at or after it where the pattern matches, none before it, or none at all |
| SmartMatching.NumberedHeadingIff | pages/smart-matching/smart-matching.js:237 | a bold text is a title iff it starts with one or more digits followed by a dot |
| SmartMatching.LinkTypeOf | pages/smart-matching/smart-matching.js:246-257 | a link is a house-tour link iff its URL contains `house-tour`, an appointment link iff it contains `appointment` but not `house-tour` |
| SmartMatching.HouseIdFrom | pages/smart-matching/smart-matching.js:251 | the leftmost position at or after `i` where `houseId=` is followed by a digit, every earlier one skipped, and none exactly when no such position exists |
| SmartMatching.LinkId | pages/smart-matching/smart-matching.js:246-257 | an unknown link has id `''`; a known link has a non-empty id exactly when `houseId=` followed by a digit occurs, and then the id is the whole digit run after the leftmost such `houseId=` |
| SmartMatching.IdDigits | pages/smart-matching/smart-matching.js:251-252 | at a match of `houseId=\d`, the captured group `(\d+)` is the whole non-empty digit run after `houseId=` |
| SmartMatching.NodeOf | pages/smart-matching/smart-matching.js:233-260 | a `<strong>` match becomes a title or bold node by the heading test; an anchor becomes a link node with its text, URL, type and id |
| SmartMatching.PiecesTile | pages/smart-matching/smart-matching.js:223-269 | the text pieces and matches the loop emits lie end to end and cover the whole text, no match starting inside a text piece |
| SmartMatching.ChainAppend | pages/smart-matching/smart-matching.js:223-269 | two adjacent covered stretches make one |
| SmartMatching.GapChain | pages/smart-matching/smart-matching.js:228-231 | the text emitted before a match covers exactly the stretch up to it |
| SmartMatching.Nodes | pages/smart-matching/smart-matching.js:223-269 | one node per piece, in order |
| SmartMatching.NodesAppend | pages/smart-matching/smart-matching.js:223-269 | the nodes of joined pieces are the joined nodes |
| SmartMatching.NodesStep | pages/smart-matching/smart-matching.js:226-263 | one match contributes the text before it, if any, then its own node |
| SmartMatching.TokensShape | pages/smart-matching/smart-matching.js:228-269 | the tokenizer makes no groups and no empty text nodes |
| SmartMatching.TokensOfPlainText | pages/smart-matching/smart-matching.js:266-269 | text where the pattern matches nowhere is a single text node |
| SmartMatching.PartnerFrom | pages/smart-matching/smart-matching.js:284-305 | the look-ahead finds an appointment link among the next three nodes, reached over text nodes only |
| SmartMatching.PartnerFromNone | pages/smart-matching/smart-matching.js:298-302 | when the look-ahead finds nothing, every appointment link within reach is cut off by a node that is not text |
| SmartMatching.Partner | pages/smart-matching/smart-matching.js:280-305 | the partner of a house-tour link lies within the next three nodes |
| SmartMatching.NextIndex | pages/smart-matching/smart-matching.js:276-296 | the outer loop always moves forward, at most to the end |
| SmartMatching.GroupFrom | pages/smart-matching/smart-matching.js:276-314 | grouping never lengthens the node list |
| SmartMatching.FlattenCons | pages/smart-matching/smart-matching.js:276-314 | flattening distributes over a leading node |
| SmartMatching.GroupAtShape | pages/smart-matching/smart-matching.js:280-311 | the node made at `i` stands for exactly the input nodes it consumes, and a group it makes is a house-tour link, text nodes, then an appointment link |
| SmartMatching.GroupFlatten | pages/smart-matching/smart-matching.js:275-315 | expanding every group gives the input nodes back: grouping loses and reorders nothing |
| SmartMatching.GroupsWellFormedCons | pages/smart-matching/smart-matching.js:275-315 | a well-formed node in front of well-formed output keeps it well formed |
| SmartMatching.GroupShape | pages/smart-matching/smart-matching.js:275-315 | every group made is well formed |
| SmartMatching.ScanForAppointment | pages/smart-matching/smart-matching.js:284-305 | the inner `while` finds the look-ahead's partner and returns the text nodes passed over |
| SmartMatching.GroupLinksStep | pages/smart-matching/smart-matching.js:277-313 | one pass of the outer loop keeps the invariant that the output so far plus the rest grouped is the whole grouping |
| SmartMatching.NextGroup | pages/smart-matching/smart-matching.js:278-313 | one turn of the outer loop pushes the grouped node and moves to the next index |
| SmartMatching.GroupLinks | pages/smart-matching/smart-matching.js:275-315 | `groupLinks` returns exactly the specified grouping |
| SmartMatching.Parsed | pages/smart-matching/smart-matching.js:194-196 | no content gives no nodes |
| SmartMatching.ParsedFlattens | pages/smart-matching/smart-matching.js:194-272 | the parsed nodes with their groups flattened are exactly the tokens of the preprocessed content |
| SmartMatching.TokenizeStep | pages/smart-matching/smart-matching.js:226-263 | one turn of the tokenizing loop keeps its invariant |
| SmartMatching.Tokenize | pages/smart-matching/smart-matching.js:223-269 | the tokenizing loop returns the nodes of the pieces that tile the text |
| SmartMatching.ParseMessage | pages/smart-matching/smart-matching.js:194-272 | `parseMessage` returns the specified parse of its content |
| SmartMatching.AvatarUrl | pages/smart-matching/smart-matching.js:44-53 | no user or avatar gives the default image; an `http` avatar is kept; any other is put under the file-download prefix |
| SmartMatching.MessageOf | pages/smart-matching/smart-matching.js:121-126 | a stored message keeps its role, content and time, and an empty content parses to no nodes |
| SmartMatching.ReplyText | pages/smart-matching/smart-matching.js:149-182 | a successful reply shows its content; a declined reply the apology; a thrown request the network notice |
| SmartMatching.ReplyOf | pages/smart-matching/smart-matching.js:149-182 | the assistant message of each outcome is built from that outcome's text |
| SmartMatching.SmartMatchingPage.constructor | pages/smart-matching/smart-matching.js:5-12 | the initial data: no user, no messages, empty input, not loading |
| SmartMatching.SmartMatchingPage.CheckLoginStatus | pages/smart-matching/smart-matching.js:23-42 | a stored user sets the avatar and requests their history, whose arrival shows it (or the greeting) and whose failure toasts 获取历史记录失败; no user replaces the messages with the welcome message and requests nothing |
| SmartMatching.SmartMatchingPage.FetchHistory | pages/smart-matching/smart-matching.js:55-93 | nothing is requested without a user; otherwise `/api/smart-matching/history/<id>` is requested, a reply replaces the messages by ShownHistory of its entries (a falsy body read as none), and a failure leaves them and toasts 获取历史记录失败 |
| SmartMatching.HistoryMessages | pages/smart-matching/smart-matching.js:64-70 | one message per stored entry, in order, with the entry's role and content, parsed nodes and creation time |
| SmartMatching.ShownHistory | pages/smart-matching/smart-matching.js:64-81 | never empty: the history's messages, or exactly the greeting when the history is empty |
| SmartMatching.GreetingName | pages/smart-matching/smart-matching.js:73 | `realName || username`: the real name when truthy, else the username, printed as `undefined` when absent and `null` when `null` |
| SmartMatching.SmartMatchingPage.HandleInput | pages/smart-matching/smart-matching.js:96-100 | the input text is stored |
| SmartMatching.SmartMatchingPage.PostQuestion | pages/smart-matching/smart-matching.js:120-136 | the question is appended, the input cleared and loading set |
| SmartMatching.SmartMatchingPage.PostReply | pages/smart-matching/smart-matching.js:149-184 | the reply message is appended and loading cleared |
| SmartMatching.SmartMatchingPage.SendMessage | pages/smart-matching/smart-matching.js:102-185 | blank input or a pending reply changes nothing; a visitor is asked to sign in; otherwise the trimmed question and the reply are appended in order and the input cleared |
| Markup.LiteralAt | pages/smart-matching/smart-matching.js:214-216 | a case-insensitive literal match lies within the text |
| Markup.BrTagLength | pages/smart-matching/smart-matching.js:214 | a `<br\s*\/?>` tag at the start is at least four characters long, or absent |
| Markup.WhitespaceRun | pages/smart-matching/smart-matching.js:217 | the run of white space at the start ends at the first other character |
| Markup.LastNewline | pages/smart-matching/smart-matching.js:217 | the last newline before a position, with none after it, or none at all |
| Markup.BreaksKeepPlain | pages/smart-matching/smart-matching.js:214 | text without `<` in front of the rest is kept by the line-break rewrite |
| Markup.BreakBecomesNewline | pages/smart-matching/smart-matching.js:214 | `<br>` and `<br/>` each become one newline |
| Markup.ParagraphEndsKeepPlain | pages/smart-matching/smart-matching.js:215 | text without `<` in front of the rest is kept by the paragraph-end rewrite |
| Markup.ParagraphEndBecomesNewline | pages/smart-matching/smart-matching.js:215 | `</p>` becomes one newline |
| Markup.ParagraphStartsKeepPlain | pages/smart-matching/smart-matching.js:216 | text without `<` in front of the rest is kept by the paragraph-start removal |
| Markup.ParagraphStartRemoved | pages/smart-matching/smart-matching.js:216 | `<p>` disappears |
| Markup.CollapseKeepsLines | pages/smart-matching/smart-matching.js:217 | text without a newline in front of the rest is kept by the blank-line collapse |
| Markup.BlankLineCollapses | pages/smart-matching/smart-matching.js:217 | two newlines followed by text that is not white space collapse to one |
| MapSearch.ToggleOff | pages/map-search/map-search.js:58-74 | tapping an active filter chip removes it and keeps every other chip in order |
| MapSearch.ToggleOn | pages/map-search/map-search.js:58-74 | tapping an inactive chip appends it; a rental-type chip (`whole`, `shared`, `single`) first drops the other rental types, any other chip leaves the list as it was |
| MapSearch.ToggleKeepsOneRental | pages/map-search/map-search.js:64-69 | the rental types are exclusive: toggling never leaves two of them active at once |
| MapSearch.ToggleTwice | pages/map-search/map-search.js:58-74 | tapping an inactive non-rental chip twice gives the chip list back |
| MapSearch.RentalCountAppend | pages/map-search/map-search.js:64-69 | the number of rental-type chips is additive over concatenation |
| MapSearch.RentalCountFilter | pages/map-search/map-search.js:61-62 | removing chips never adds a rental type |
| MapSearch.RentalCountNone | pages/map-search/map-search.js:65-67 | after dropping the rental types none is left |
| MapSearch.SelectedSpec | pages/map-search/map-search.js:77-103 | the rooms kept by search text, rental type and subway chip are a subsequence of all rooms and are exactly the rooms passing every active filter |
| MapSearch.SelectedSubsequence | pages/map-search/map-search.js:81-103 | each filter step only deletes rooms, so the result keeps the original order |
| MapSearch.SelectedMembers | pages/map-search/map-search.js:81-103 | a room is kept iff it is among the rooms and matches the lower-cased search key in community, district or street, has each selected rental type and mentions 地铁 when the subway chip is on |
| MapSearch.KeyFilter | pages/map-search/map-search.js:81-88 | the search step's predicate is the search clause of the combined filter |
| MapSearch.StepSubsequence | pages/map-search/map-search.js:91-103 | one optional filter step yields a subsequence of its input |
| MapSearch.StepAt | pages/map-search/map-search.js:91-103 | a room survives one optional filter step iff it was present and passes the step's predicate when the step is active |
| MapSearch.FilteredSpec | pages/map-search/map-search.js:105-110 | without `price_desc` the shown rooms are the kept rooms; with it they are a permutation of them in non-increasing price |
| MapSearch.Markers | pages/map-search/map-search.js:116-151 | one pin per shown room, the `i`-th built from the `i`-th room |
| MapSearch.MarkersSpec | pages/map-search/map-search.js:116-151 | each pin carries its room's id and the callout `¥<rentPrice>` |
| MapSearch.MarkerPlacement | pages/map-search/map-search.js:118-124 | a room with parsable coordinates is pinned at them; otherwise the pin lands within ±0.025 of the map centre |
| MapSearch.AddressNonEmpty | pages/map-search/map-search.js:272-283 | the geocoding address always has the city (default 深圳市), so the empty-address branch is never taken |
| MapSearch.FindById | pages/map-search/map-search.js:290 | `findIndex`: the first room with the id, or none when no room has it |
| MapSearch.PlaceWrites | pages/map-search/map-search.js:290-294 | a geocoding result lands in the first room with that id and no other room changes |
| MapSearch.LocatedChangesCoordinatesOnly | pages/map-search/map-search.js:286-295 | writing results back changes only latitude and longitude of rooms; ids, addresses, prices and types stay |
| MapSearch.Saved | pages/map-search/map-search.js:297-307 | the success count never exceeds the number of rooms processed |
| MapSearch.LocatedStep | pages/map-search/map-search.js:262-318 | the rooms after `i+1` write-backs are the rooms after `i` with the next result placed |
| MapSearch.SavedStep | pages/map-search/map-search.js:297-307 | the success count after `i+1` rooms adds one exactly when the next room was found and saved |
| MapSearch.MapSearchPage.constructor | pages/map-search/map-search.js:4-24 | the initial page data: no rooms, no filters, the Shenzhen centre |
| MapSearch.MapSearchPage.ApplyFilters | pages/map-search/map-search.js:77-151 | the shown rooms become the filtered rooms and the markers their pins; nothing else changes |
| MapSearch.MapSearchPage.FetchRooms | pages/map-search/map-search.js:30-46 | a successful reply with rooms replaces the rooms and refilters; any other reply changes nothing |
| MapSearch.MapSearchPage.OnSearchInput | pages/map-search/map-search.js:49-51 | the search text is stored without refiltering |
| MapSearch.MapSearchPage.ToggleFilter | pages/map-search/map-search.js:58-74 | the chip list becomes the toggled list and the rooms are refiltered |
| MapSearch.MapSearchPage.OnRegionChange | pages/map-search/map-search.js:225-232 | only the end of a drag moves the stored centre |
| MapSearch.MapSearchPage.WriteBack | pages/map-search/map-search.js:288-294 | the room list becomes the list with the result placed; nothing else changes |
| MapSearch.MapSearchPage.GeocodeAll | pages/map-search/map-search.js:262-318 | every incomplete room is processed in order; success plus failure equals the rooms processed, success counts the rooms found and saved, and the rooms are the write-backs of all results |
| MapSearch.MapSearchPage.StartAICompletion | pages/map-search/map-search.js:235-333 | with no incomplete room nothing changes; otherwise the counts as above, the rooms updated and the shown rooms and markers refiltered from them |
| MapSearch.Place | pages/map-search/map-search.js:287-293 | writing a geocoding result back keeps the number of rooms |
| MapSearch.Located | pages/map-search/map-search.js:262-293 | writing back every result in turn keeps the number of rooms |
| HouseSelection.PriceParams | pages/house-selection/house-selection.js:73-77 | `minPrice` 0 and `maxPrice` (the range's upper end) are sent exactly when that end is below 10000 |
| HouseSelection.AreaParams | pages/house-selection/house-selection.js:79-83 | `minArea` 0 and `maxArea` are sent exactly when the area range's upper end is below 200 |
| HouseSelection.RentalTypeParam | pages/house-selection/house-selection.js:85-88 | the rental type is sent, as `parseInt` of the choice, exactly when a type is chosen |
| HouseSelection.DecorationParam | pages/house-selection/house-selection.js:90-93 | the decoration is sent, as `parseInt` of the choice, exactly when one is chosen |
| HouseSelection.KeywordParam | pages/house-selection/house-selection.js:95-98 | the keyword is sent exactly when it is not empty, and unchanged |
| HouseSelection.ChoiceSentAsNumber | pages/house-selection/house-selection.js:85-93 | a choice of decimal digits such as `'2'` is sent as that number |
| HouseSelection.KeptSpec | pages/house-selection/house-selection.js:108-111 | with the elevator filter on the kept houses are exactly those with `hasElevator === 1`, in order; with it off all houses are kept |
| HouseSelection.ArrangedSpec | pages/house-selection/house-selection.js:113-130 | the shown houses are a permutation of the kept houses, ordered as `currentSort` asks: 2 price up, 3 price down, 4 area down, 5 area up, anything else id down |
| HouseSelection.Listing | pages/house-selection/house-selection.js:132-136 | every shown house is the arranged house with its formatted phone attached, in order |
| HouseSelection.FormatPhoneSpec | pages/house-selection/house-selection.js:272-279 | a falsy phone gives `''`; eleven digits give `3-4-4` groups whose digits are the phone's digits; any other phone is kept as it is |
| HouseSelection.SplitDigits | pages/house-selection/house-selection.js:276 | removing non-digits from the hyphenated form gives the eleven digits back |
| HouseSelection.FormatPhoneIdempotent | pages/house-selection/house-selection.js:272-279 | formatting an already formatted phone changes nothing |
| HouseSelection.FormatPriceSpec | pages/house-selection/house-selection.js:252-258 | a falsy price reads `0元/月`; below 10000 it reads in 元/月 with digits that read back as the price; from 10000 it is the one-decimal rendering followed by 万/月 |
| HouseSelection.FormatAreaSpec | pages/house-selection/house-selection.js:261-263 | the area text ends in ㎡, a falsy area reads `0㎡`, and the digits of a positive area read back as the area |
| HouseSelection.FormatRoomTypeSpec | pages/house-selection/house-selection.js:266-269 | types 0, 1, 2 have distinct names and every other value is 未知 |
| HouseSelection.FindHouse | pages/house-selection/house-selection.js:232 | `findIndex`: the first house with the id, or none when no house has it |
| HouseSelection.FavoritedSpec | pages/house-selection/house-selection.js:228-243 | only the first house with the id flips its favourite mark; an unknown id changes nothing |
| HouseSelection.FavoritedTwice | pages/house-selection/house-selection.js:228-243 | toggling the same favourite twice restores the list |
| HouseSelection.FirstIndexUnique | pages/house-selection/house-selection.js:232 | the first index holding the id is the one `findIndex` returns |
| HouseSelection.AppointmentUrlSpec | pages/house-selection/house-selection.js:290-308 | the page navigates exactly for status 0 and a house present in the list, to the appointment page for that house id |
| HouseSelection.HouseSelectionPage.constructor | pages/house-selection/house-selection.js:5-52 | the initial data: default filters, no houses, sort 1, empty keyword |
| HouseSelection.HouseSelectionPage.BeginLoad | pages/house-selection/house-selection.js:65-105 | a load in progress ignores the call; otherwise loading starts and the query is built from the filters and keyword |
| HouseSelection.HouseSelectionPage.EndLoad | pages/house-selection/house-selection.js:103-152 | a reply (`null` as no houses) becomes the listing and ends paging; a failure only stops loading |
| HouseSelection.HouseSelectionPage.OnSearch | pages/house-selection/house-selection.js:156-160 | the keyword (`''` for none) is stored and a load begins |
| HouseSelection.HouseSelectionPage.ToggleFilterPanel | pages/house-selection/house-selection.js:163-167 | the filter panel's visibility flips |
| HouseSelection.HouseSelectionPage.UpdateFilter | pages/house-selection/house-selection.js:170-180 | the one filter field named is set and the others stay |
| HouseSelection.HouseSelectionPage.ApplyFilters | pages/house-selection/house-selection.js:183-186 | the panel closes and a load begins |
| HouseSelection.HouseSelectionPage.ResetFilters | pages/house-selection/house-selection.js:189-199 | the filters return to their defaults |
| HouseSelection.HouseSelectionPage.SelectSort | pages/house-selection/house-selection.js:202-206 | the sort order is stored and a load begins |
| HouseSelection.HouseSelectionPage.ToggleFavorite | pages/house-selection/house-selection.js:228-243 | the list becomes the list with that house's favourite mark flipped |
| Community.UrlResolvers | pages/community/community.js:668-694 | `getAvatarUrl` and `buildFileUrl` differ only in their fallback for a missing name (the default avatar, `''`); an `http` name is kept and any other is put under the file-download prefix |
| Community.MediaListSpec | pages/community/community.js:677-688 | no media text gives no media; a JSON array gives one URL per element in order; text that is not JSON is itself the one file; other JSON gives none; every URL is `''` or starts with `http` |
| Community.PostTimeBuckets | pages/community/community.js:701-710 | under a minute (the future included) 刚刚; under an hour the whole minutes 1 to 59; under a day the whole hours 1 to 23; older posts as month and day |
| Community.WithGroupSpec | pages/community/community.js:318-323 | the returned group is appended only when no listed group has its id; the old groups stay as a prefix, the id is then present, and distinct ids stay distinct |
| Community.Uncached | pages/community/community.js:242 | the ids requested are exactly the given ids without a cache entry |
| Community.GatheredOnlyAdds | pages/community/community.js:245-268 | storing replies only adds entries: cached ids keep their entries, and each new key is a requested id whose reply yielded a user |
| Community.GatheredStores | pages/community/community.js:245-268 | every requested id whose reply yields a user (`user` on success, else the reply itself when it has an id, else `data`) is cached with that user |
| Community.GatheredStep | pages/community/community.js:247-262 | the cache after `i+1` replies is the cache after `i` with the next reply's user stored, if any |
| Community.LikedSpec | pages/community/community.js:552-575 | a successful like sets the post's `liked` and moves its count one up or down (a missing count as 0); no other post and no other field changes; a failed reply changes nothing |
| Community.LikeUnlike | pages/community/community.js:568-569 | liking then unliking leaves the post unliked with its original count |
| Community.AfterCommentSpec | pages/community/community.js:628-632 | a stored comment becomes the post's last comment after the old ones, the count goes up by one and the input is cleared; nothing else about the post changes |
| Community.DecoratedAll | pages/community/community.js:520-528 | every post of the reply, in order, gets its avatar URL, media list and relative time |
| Community.FeedSpec | pages/community/community.js:530-536 | the feed tab shows exactly the public posts (other tabs all), and the popular filter shows a permutation of them ordered by like count, most first |
| Community.CommunityPage.constructor | pages/community/community.js:6-38 | the initial page data: chat tab, groups sub-tab, filter `all`, no posts, nothing loading, more to come, empty cache |
| Community.CommunityPage.StartPrivateChat | pages/community/community.js:310-334 | a successful reply adds its group unless listed, opens it and shows the groups tab; a failure changes nothing |
| Community.CommunityPage.FetchUsersInfo | pages/community/community.js:241-269 | the uncached ids are requested in order and the cache becomes the cache with every yielded user stored |
| Community.CommunityPage.ToggleLike | pages/community/community.js:552-575 | without a user the page goes to sign-in and nothing changes; otherwise the posts become the liked posts |
| Community.CommunityPage.SubmitComment | pages/community/community.js:606-640 | a missing post or blank text is refused, a visitor goes to sign-in, otherwise the comment is sent and a stored one is added to that post only |
| Community.CommunityPage.BeginLoadPosts | pages/community/community.js:504-513 | ignored while loading or when not resetting with nothing more to come; otherwise loading starts and the URL carries the user id when there is one |
| Community.CommunityPage.EndLoadPosts | pages/community/community.js:515-543 | the feed built from a successful reply (none otherwise) is shown and paging ends; a thrown request only stops loading |

## Left out

- Rendering: the Three.js renderer, camera, geometry, materials, textures, the render loop and the sin/cos look-at in `updateCameraRotation` (foreign library, floating point). Only the latitude clamp and the meshes in the scene graph are modelled.
- Platform calls: toasts, modals, loading overlays, navigation (`navigateTo`, `switchTab`, `redirectTo`, `reLaunch`, `navigateBack`), phone calls, storage writes and pull-down refresh. Where a handler's result is a navigation or a stored value, the method returns it; the platform's reaction is not modelled.
- Asynchrony: interleavings of handlers, `Promise.all`, `setTimeout` delays, polling intervals. Each handler is one step, and a `Begin…`/`End…` pair stands for one request. Nothing guards a stale texture-load callback, just as in the source: the last callback to run wins.
- Oracles: `JSON.parse`, `new Date(..)`, `Date.now`, `toLocaleDateString`/`toLocaleTimeString`, `toISOString`, `Math.random`, `encodeURIComponent` and `toFixed` are parameters of the members that use them. Their own behaviour is not modelled.
- Numbers: JavaScript numbers are `int`, or `real` for coordinates and touch positions. NaN, `Infinity` and floating-point rounding are not modelled; a `parseInt` that gives NaN is `None`.
- Text: `toLowerCase` folds ASCII letters only, and `trim` uses the white-space set that JavaScript's `trim` uses. Strings are sequences of Unicode characters, not the UTF-16 code units JavaScript counts, so lengths differ for characters outside the Basic Multilingual Plane.
- Missing values: `null` and `undefined` are one value (`None`) wherever the pages only test them for truth. They are kept apart (`Nullable`, `UserProfile.Value`) where the source prints one: the greeting name, the appointment page's `houseTitle` and the profile's user id in a URL.
- Objects: a record passed around and also kept in page data is copied by value. Aliasing of shared objects is not modelled, for example `toggleFavorite` changing a house that another list also holds. Key order in query maps and headers is not modelled: they are Dafny maps.
- External services: AMap geocoding (`geocodeAddress`), `updateRoomBackend`, the simulated analysis and marker taps in `map-search`, `captureScreenshot`, `uploadFile` in `utils/request.js`, and `chooseAvatar`/`uploadAvatar` in the profile page. Their results are inputs where a modelled handler consumes them.
- Handlers not modelled, being pure UI toggles or navigation: `toggleControls`, `toggleAssistant` (VR tour); `makeAppointment`, `callLandlord`, `viewHouseDetail`, `goToHouseTour`, `goBack` and the other `navigate…`/`go…` handlers; `handleLinkTap` (smart matching); `goBack` and the success modal's buttons (appointment).
- VR tour `setInitialScene`: not modelled, because nothing in that page calls it. The plain tour's `setInitialScene` is modelled.
- Community: the group and friend chat (messages, polling, friend requests, group creation), `publishPost`, `toggleComments`, `onCommentInput` and the tab handlers. Only the feed, likes, comments, the user-info cache and private-chat creation are modelled.
- Smart matching: a stored history entry's `role` is one of `user` and `assistant`; another role string is not modelled. The `scrollToBottom` callback after the history is shown is not modelled either.
- Login: `checkPhone`/`checkUsername` (server look-ups made while typing) and `fillTestAccount` (a developer shortcut).
- Request: `handleError` is modelled as the toast it picks; the toast itself, the log output and the "session expired" modal with its redirect to the login page are not.
- Stored user ids: the pages that read the stored user's `id` (home, maintenance, smart matching, my appointments) type it as an integer. A stored user without an `id` is not representable there. In the source such a user would put `undefined` into the request URLs, and smart matching would send a chat body without `userId`.
- Community media: an element of a parsed `mediaUrls` array is a string or a falsy value (`None`). A truthy number or an object there, on which `startsWith` throws and the catch branch takes over, is not representable.
- User profile: a `birthday` that is not a string (a number or an object from the server) is read as an empty date. The source would throw on `split`.
- Appointment.AppointmentPage.OnTimeChange: requires the picked index to be one the picker shows. An index outside the slot list, which the picker never reports, would store `undefined`.
- Appointment.AppointmentPage.OnTypeChange: requires the picked index to be one the picker shows. An index outside the list, which the picker never reports, would throw.
- Appointment.BuildPayload: the request body is a Dafny datatype, not a JSON object; `null` and NaN are `None`.
- MapSearch.Located, MapSearch.Place: their own contracts state only the length. What they write is stated by `MapSearch.PlaceWrites` and `MapSearch.LocatedChangesCoordinatesOnly`.
