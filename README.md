# A verified model of the jacquesbelmont/site server core

This project models the server side of the jacquesbelmont/site website, a
personal site made of a blog, a digital-product shop, a video list, a
contact form and an admin panel. It is written in Dafny as a set of
modules, one per route or library file. Every HTTP handler is a pure
function. Its inputs are:

- the request's cookies, query parameters and parsed JSON body;
- the token library, modelled as a pair of oracles;
- the database, modelled as an oracle record `Store.Db`;
- where the source reads the clock, the current time.

Each handler returns an `Http.Outcome`: the response it sends and the exact,
ordered list of store requests it issues. The model states for each handler:

- which requests it makes;
- when it makes none at all, for example when the gate refuses;
- which status and body it answers for each answer the store can give,
  including a rejected store call.

The pieces the handlers share are modelled once:

- the admin gate (`Gate.Check`);
- the slug rule (`Slug.Slugify`);
- offset paging (`Paging`);
- the `where` filters, with a meaning for the rows they keep (`Store.Selects`);
- the find/write/delete answers (`Crud`).

The database seeder is modelled twice:

- as a class `Seed.Database` whose methods update its tables in place;
- as the function `Seed.Seeded`, which states what one run leaves behind.

The client-side admin session store is a class, `AdminConfig.Browser`. The
translation tables, the language-prefixed URL helpers and the SEO helpers
(meta tags, JSON-LD, breadcrumbs, sitemap) are functions about which the
model proves round trips and shapes.

JavaScript semantics are written out where the handlers depend on them:

- truthiness, `||` and destructuring defaults, in `Json`;
- members that are `undefined` are left out of stored objects (`Json.Put`);
- `toUpperCase` on a non-string throws (`Json.UpperValue`, `Json.StringValue`);
- a thrown exception inside a handler becomes its 500 'Internal server error'
  answer.

## Model

The `BuildWhere` methods (admin posts, members, admin products, public products, blog posts) are the imperative rendering of the handlers' step-by-step `where.x = …` assignments. Each is proved equal to the where function that the handlers use.

| member | source | states |
|---|---|---|
| Auth.PublicUser | src/lib/auth.ts:54-59 | the object handed to clients holds at most `id`, `email`, `name` and `role`, each equal to the account's member |
| Auth.PublicUserHidesPassword | src/lib/auth.ts:54-59 | the public user object never carries the password hash |
| Auth.HashPassword | src/lib/auth.ts:14-16 | no contract of its own: the bcrypt oracle called with cost 12 (`BcryptCost`); Auth.CreateUser and Seed.Database.SeedAdmin state its use |
| Auth.GenerateToken | src/lib/auth.ts:22-33 | no contract of its own: the signer applied to PublicUser with a seven-day lifetime; its properties are TokenIgnoresOtherFields and AdminLogin.LoginSignsPublicFields |
| Auth.TokenIgnoresOtherFields | src/lib/auth.ts:22-33 | the token depends only on `id`, `email`, `name` and `role`, so the password hash and any other member never change it, and it is signed for 604800 seconds |
| Auth.VerifyToken | src/lib/auth.ts:35-41 | total: None exactly when the token library throws, otherwise its claims unchanged |
| Auth.AuthenticateUser | src/lib/auth.ts:43-64 | one look-up by email; the public fields of the account exactly when it exists and the password matches its hash; None for an unknown email, a failed comparison or a rejected look-up |
| Auth.NewUserData | src/lib/auth.ts:66-76 | the stored row has exactly email, password, name and role; the password member is the hash; the role defaults to 'USER' |
| Auth.CreateUser | src/lib/auth.ts:66-77 | hashes with cost 12; a failed hash issues no write; otherwise exactly one users insert holding the hash |
| Gate.Check | src/pages/api/admin/posts.ts:7-21 | 401 'Unauthorized' exactly when the cookie is absent or empty; 403 'Forbidden' exactly when the token does not verify or its role is not 'ADMIN'; otherwise admitted with the verified claims |
| Gate.CookieNamesMatter | src/pages/api/admin/categories.ts:29-43 | an admin token held only in `auth-token` passes the category gate but gets 401 from the `admin-token` gate of the posts handler |
| Crud.GetById | src/pages/api/admin/posts.ts:31-52 | one look-up by id; 200 with the row exactly when it exists, 404 with the handler's message exactly when it does not, 500 when the store rejects |
| Crud.Written | src/pages/api/admin/posts.ts:140-166 | exactly the one write; the handler's status with the written row, or 500 when the store rejects it |
| Crud.Deleted | src/pages/api/admin/posts.ts:241-250 | an unreadable body gives 500 without a call; otherwise one delete by the body's id and `{ success: true }` exactly when it succeeds |
| Crud.SplitId | src/pages/api/admin/posts.ts:195 | `const { id, ...rest }`: the id, and every other member unchanged |
| Crud.SlugOr | src/pages/api/admin/posts.ts:136-138 | a truthy client slug is kept verbatim; otherwise the slug of the title, which is well formed, and the call throws exactly when the title is not a string |
| Crud.UpperMember | src/pages/api/admin/members.ts:160-165 | a truthy member is upper-cased in place; a falsy one leaves the object unchanged; a truthy non-string throws |
| Paging.IntParam | src/pages/api/admin/posts.ts:25-26 | an absent or empty parameter gives the default; otherwise its decimal value, at least 1 |
| Paging.PageCountIsCeiling | src/pages/api/admin/posts.ts:87 | `pages` is the least number of pages of `limit` rows that holds every row, and zero exactly when there are none |
| Paging.FirstPagesPrefix | src/pages/api/admin/posts.ts:53 | pages 1 to n, read in turn, are the first `n * limit` rows in order |
| Paging.PagesCoverAllRows | src/pages/api/admin/posts.ts:53 | reading pages 1 to `pages` returns every row exactly once, in order |
| Paging.PagesBeyondCountAreEmpty | src/pages/api/admin/posts.ts:53 | a page is empty exactly when its number is beyond `pages` |
| Paging.Window | src/pages/api/admin/posts.ts:75-76 | a `skip`/`take` window never holds more than `take` rows |
| Paging.ListPage | src/pages/api/admin/posts.ts:53-92 | the find with skip `(page - 1) * limit` and take `limit`, then the count under the same filter; 200 with the rows and `{ page, limit, total, pages }` exactly when both succeed, otherwise 500 |
| AdminPosts.PostsWhere | src/pages/api/admin/posts.ts:54-64 | `published` is filtered exactly for the statuses 'published' and 'draft'; a search looks for the text in title and excerpt |
| AdminPosts.BuildWhere | src/pages/api/admin/posts.ts:54-64 | the handler's member-by-member assignments build PostsWhere |
| AdminPosts.StatusFilterSelects | src/pages/api/admin/posts.ts:56-57 | a 'published' or 'draft' status keeps exactly the posts in that state |
| AdminPosts.OtherStatusSelectsAll | src/pages/api/admin/posts.ts:56-57 | any other status, or none, filters nothing |
| AdminPosts.ListPosts | src/pages/api/admin/posts.ts:53-92 | the paged find and count under PostsWhere, newest first, answered as ListPage answers: 200 with the posts and `{page, limit, total, pages}`, or 500 |
| AdminPosts.GetHandler | src/pages/api/admin/posts.ts:5-100 | behind the `admin-token` gate: a given id reads one post (404 'Post not found') whatever `page` and `limit` say, otherwise the paged list |
| AdminPosts.CreateData | src/pages/api/admin/posts.ts:120-156 | the create payload holds only the post's fields; it throws exactly when there is neither a truthy slug nor a string title |
| AdminPosts.CreatePassesThrough | src/pages/api/admin/posts.ts:121-134 | title, excerpt, content, image, category id, keywords and read time are stored as sent |
| AdminPosts.CreateDefaults | src/pages/api/admin/posts.ts:127-152 | the slug rule; `published` and `featured` default to false; the token user is the author; the SEO title and description fall back to title and excerpt |
| AdminPosts.CreatePublishedAt | src/pages/api/admin/posts.ts:155 | `publishedAt` is set, to the current time, exactly when the post is published, and is null otherwise |
| AdminPosts.PostHandler | src/pages/api/admin/posts.ts:102-174 | behind the gate: 201 with the created post, or 500 without a write when the body or the slug cannot be read |
| AdminPosts.UpdateData | src/pages/api/admin/posts.ts:194-199 | every member but `id` is kept; `publishedAt` is stamped with the current time exactly when the post is published without a truthy `publishedAt`, and is otherwise left as sent |
| AdminPosts.PrepareUpdate | src/pages/api/admin/posts.ts:194-199 | the handler's in-place steps compute UpdateData |
| AdminPosts.UpdateKeepsPublishedAt | src/pages/api/admin/posts.ts:197-199 | an existing truthy `publishedAt` is never replaced, so the payload does not depend on the clock |
| AdminPosts.PutHandler | src/pages/api/admin/posts.ts:176-221 | behind the gate: one update by id with the UpdateData payload, 200 with the row, 500 on failure |
| AdminPosts.DeleteHandler | src/pages/api/admin/posts.ts:223-258 | behind the gate: the shared delete |
| Taxonomy.ListByName | src/pages/api/admin/categories.ts:5-25 | one unpaged find of every row, ordered by name; 200 with the rows or 500; no token is read |
| Taxonomy.CategoriesGet | src/pages/api/admin/categories.ts:5-25 | one unpaged find of every category by name; 200 with the rows, or 500 |
| Taxonomy.TagsGet | src/pages/api/admin/tags.ts:5-25 | one unpaged find of every tag by name; 200 with the rows, or 500 |
| Taxonomy.Named | src/pages/api/admin/tags.ts:45-56 | name, the name's slug (well formed) and the colour or its default; throws exactly when the name is not a string |
| Taxonomy.CategoryData | src/pages/api/admin/categories.ts:45-58 | as Named with '#3B82F6', plus the description when one is sent |
| Taxonomy.TagData | src/pages/api/admin/tags.ts:45-56 | exactly name, the name's slug and the colour or the default '#6B7280'; throws exactly when the name is not a string |
| Taxonomy.ClientSlugIgnored | src/pages/api/admin/categories.ts:45-49 | a slug member in the request changes nothing: the slug always comes from the name |
| Taxonomy.Created | src/pages/api/admin/categories.ts:27-71 | behind the `auth-token` gate: one create, 201 with the row; an unreadable payload gives 500 without a write |
| Taxonomy.CategoriesPost | src/pages/api/admin/categories.ts:27-71 | admitted with a readable body, exactly the one category insert, answered 201 with the created row or 500 when the store rejects it; otherwise 500 without a write |
| Taxonomy.TagsPost | src/pages/api/admin/tags.ts:27-70 | admitted with a readable body, exactly the one tag insert, answered 201 with the created row or 500 when the store rejects it; otherwise 500 without a write |
| Taxonomy.AdminCookieAloneRefused | src/pages/api/admin/categories.ts:29-35 | without an `auth-token` cookie both creators answer 401, whatever other cookies are sent |
| Members.MembersWhere | src/pages/api/admin/members.ts:50-60 | a given plan or status is filtered upper-cased; a search looks for the text in name and email; nothing else is filtered |
| Members.BuildWhere | src/pages/api/admin/members.ts:50-60 | the handler's member-by-member assignments build MembersWhere |
| Members.FilterIgnoresCase | src/pages/api/admin/members.ts:52-53 | the filter is the same whatever the ASCII case of the plan and status parameters |
| Members.PlanFilterSelects | src/pages/api/admin/members.ts:52 | a plan filter keeps exactly the members whose stored plan is the upper-cased parameter |
| Members.ListMembers | src/pages/api/admin/members.ts:49-83 | the paged find and count under MembersWhere, newest first, answered as ListPage answers: 200 with the members and the pagination, or 500 |
| Members.GetHandler | src/pages/api/admin/members.ts:5-91 | behind the `admin-token` gate: a given id reads one member (404 'Member not found') whatever `page` and `limit` say, otherwise the paged list |
| Members.ExpiryOf | src/pages/api/admin/members.ts:126 | a truthy expiry becomes a date, anything else null |
| Members.CreateData | src/pages/api/admin/members.ts:111-127 | throws exactly when the plan, or the status after its 'ACTIVE' default, is not a string; otherwise name and email as sent, plan and status upper-cased, the expiry as a date or null, and nothing else |
| Members.CreateStoresUpperCase | src/pages/api/admin/members.ts:116-125 | a new member's plan and status hold no lower-case letter, and a member sent without a status is 'ACTIVE' |
| Members.CreatedMemberFoundByPlan | src/pages/api/admin/members.ts:52-124 | a member created with some plan is kept by the list filter for that plan written in any case |
| Members.PostHandler | src/pages/api/admin/members.ts:93-141 | behind the gate: 201 with the created member, or 500 without a write when the payload cannot be built |
| Members.UpdateData | src/pages/api/admin/members.ts:161-174 | every member but `id` is kept; a truthy plan or status is upper-cased and a truthy expiry becomes a date; a truthy plan or status that is not a string throws |
| Members.PrepareUpdate | src/pages/api/admin/members.ts:161-174 | the handler's in-place steps compute UpdateData |
| Members.UpdateNormalisesLikeCreate | src/pages/api/admin/members.ts:124-174 | an update that sets plan, status and expiry stores them as a create would |
| Members.PutHandler | src/pages/api/admin/members.ts:143-192 | behind the gate: one update by id with the UpdateData payload, or 500 without a write |
| Members.DeleteHandler | src/pages/api/admin/members.ts:194-229 | behind the gate: the shared delete |
| ProductsAdmin.ProductsWhere | src/pages/api/admin/products.ts:30-39 | a given category is filtered upper-cased; a search looks for the text in name and description |
| ProductsAdmin.BuildWhere | src/pages/api/admin/products.ts:30-39 | the handler's member-by-member assignments build ProductsWhere |
| ProductsAdmin.CategoryFilterSelects | src/pages/api/admin/products.ts:32 | a category filter keeps exactly the products whose stored category is the upper-cased parameter |
| ProductsAdmin.GetHandler | src/pages/api/admin/products.ts:5-73 | behind the `admin-token` gate: the paged find and count under ProductsWhere, featured first and then newest |
| ProductsAdmin.CreateData | src/pages/api/admin/products.ts:93-125 | the create payload holds only product fields; it throws exactly when Creatable fails, and every member is the one CreateMember gives |
| ProductsAdmin.CreatableIff | src/pages/api/admin/products.ts:108-121 | the create succeeds exactly with a truthy slug or a string name, and a string category and type |
| ProductsAdmin.CreateDefaults | src/pages/api/admin/products.ts:104-124 | `active` defaults to true and `featured` to false; category and type are upper-cased; the price is the parsed price |
| ProductsAdmin.CreatePassesThrough | src/pages/api/admin/products.ts:114-122 | name, descriptions, image and download URL are stored as sent |
| ProductsAdmin.PostHandler | src/pages/api/admin/products.ts:75-139 | behind the gate: 201 with the created product, or 500 without a write when the payload cannot be built |
| ProductsAdmin.UpdateData | src/pages/api/admin/products.ts:159-172 | every member but `id` is kept; a truthy price is parsed; a truthy category and type are upper-cased; a truthy category or type that is not a string throws |
| ProductsAdmin.PrepareUpdate | src/pages/api/admin/products.ts:159-172 | the handler's in-place steps compute UpdateData |
| ProductsAdmin.UpdateConvertsLikeCreate | src/pages/api/admin/products.ts:118-172 | an update that sets price, category and type stores them as a create would |
| ProductsAdmin.PutHandler | src/pages/api/admin/products.ts:141-190 | behind the gate: one update by id with the UpdateData payload, or 500 without a write |
| ProductsAdmin.DeleteHandler | src/pages/api/admin/products.ts:192-227 | behind the gate: the shared delete |
| ProductsPublic.CatalogueWhere | src/pages/api/products/index.ts:8-23 | always `active: true`; a given category and type are filtered upper-cased; `featured` is filtered exactly for the text 'true' |
| ProductsPublic.BuildWhere | src/pages/api/products/index.ts:11-23 | the handler's member-by-member assignments build CatalogueWhere |
| ProductsPublic.ListedProductsAreActive | src/pages/api/products/index.ts:11-19 | every listed product is active, and with `featured=true` featured |
| ProductsPublic.UnfilteredIsActive | src/pages/api/products/index.ts:11 | without parameters the catalogue keeps exactly the active products |
| ProductsPublic.NewProductIsListed | src/pages/api/admin/products.ts:105 | a product the admin creates without an `active` member is active and so kept by the public catalogue's `active: true` filter |
| ProductsPublic.GetHandler | src/pages/api/products/index.ts:4-44 | no token is read; one unpaged find, featured first and then newest; 200 with the rows or 500 |
| BlogPosts.BlogWhere | src/pages/api/blog/posts.ts:10-37 | `published` is always filtered, false exactly for the text 'false'; a given category becomes a category-slug filter, a tag a tag-slug filter, a search an insensitive OR over title, excerpt and content; nothing else is filtered |
| BlogPosts.BuildWhere | src/pages/api/blog/posts.ts:17-37 | the handler's member-by-member assignments build BlogWhere |
| BlogPosts.ListedPostsMatchPublished | src/pages/api/blog/posts.ts:13-17 | every listed post is published unless the request says exactly `published=false`, and then every one is a draft |
| BlogPosts.PublishedFilterSelects | src/pages/api/blog/posts.ts:13-17 | without other filters the list keeps exactly the posts in the requested state |
| BlogPosts.SlugFiltersSelect | src/pages/api/blog/posts.ts:19-29 | a category filter keeps only posts whose category has that slug; a tag filter only posts one of whose tags has it |
| BlogPosts.GetHandler | src/pages/api/blog/posts.ts:5-74 | no token is read; one paged find newest first and one count, both over BlogWhere, answered as ListPage answers: 200 with the posts and the pagination, or 500 |
| BlogPosts.LinkRow | src/pages/api/blog/posts.ts:151-154 | a link row holds the new post's id and the tag id |
| BlogPosts.TagLinks | src/pages/api/blog/posts.ts:149-156 | one link row per tag id, in the order given |
| BlogPosts.Create | src/pages/api/blog/posts.ts:94-168 | an unparsable body or a slug that cannot be derived is 500; no category is 400 and no write; otherwise the create is issued first, then the link request exactly when the create succeeded and the tag list is non-empty; the answer is 201 with the created post exactly when the create, the `tags.length` test and any link write all succeed, and 500 otherwise |
| BlogPosts.PostHandler | src/pages/api/blog/posts.ts:76-169 | gated by the admin cookie; once admitted it is Create for the admitted user |
| BlogPosts.SlugBeforeCategoryCheck | src/pages/api/blog/posts.ts:111-122 | with no slug, title and category the slug is derived first and throws, so the answer is 500 and not 400 |
| BlogPosts.TagLinksFollowTheList | src/pages/api/blog/posts.ts:148-156 | on success an empty tag list makes no link request, and a non-empty one exactly one, holding one link per id in order |
| Videos.VideosWhere | src/pages/api/videos/index.ts:10-17 | always `published: true`; `featured: true` is added exactly for the text 'true'; no search |
| Videos.VideosWhereSelects | src/pages/api/videos/index.ts:10-17 | the list keeps exactly the published videos, and with `featured=true` the published featured ones |
| Videos.GetHandler | src/pages/api/videos/index.ts:5-48 | no token is read; one paged find newest first and one count, both over VideosWhere, answered as ListPage answers: 200 with the videos and the pagination, or 500 |
| Videos.CreateData | src/pages/api/videos/index.ts:68-89 | the payload holds only the seven destructured members; five pass through; `published` defaults to true and `featured` to false |
| Videos.NewVideoVisibility | src/pages/api/videos/index.ts:13-17 | a video created without `published` is listed; one created without `featured` is not in the featured list |
| Videos.PostHandler | src/pages/api/videos/index.ts:50-102 | gated by the user cookie; once admitted, a parsed body makes exactly one create answered 201 with the video, and an unparsable one 500 |
| Dashboard.Fetch | src/pages/api/admin/dashboard.ts:24-59 | figures exist exactly when each of the ten named reads is answered, and then each of the seven counters and three lists is the answer to its own read |
| Dashboard.GetHandler | src/pages/api/admin/dashboard.ts:5-95 | gated by the admin cookie; once admitted, exactly the ten reads in order; 200 with the statistics record exactly when every read is answered, 500 otherwise |
| Dashboard.DerivedCounters | src/pages/api/admin/dashboard.ts:61-71 | drafts plus published is the post total and inactive plus active the member total; both differences are non-negative when the filtered count does not exceed its total |
| Dashboard.RecentListsAreFiltered | src/pages/api/admin/dashboard.ts:43-58 | with a faithful store, the recent contacts are unread and at most five, the popular posts published and at most five |
| BlogStats.RoundDiv | src/pages/api/blog/stats.ts:57-58 | the nearest whole number to a/b, halves rounded up |
| BlogStats.AverageViewsBounds | src/pages/api/blog/stats.ts:57 | the average is the nearest whole number to views per post, and 0 without posts |
| BlogStats.PublishRateIsPercentage | src/pages/api/blog/stats.ts:58 | the publish rate lies between 0 and 100, is 100 when every post is published and 0 when none is |
| BlogStats.Fetch | src/pages/api/blog/stats.ts:7-44 | figures exist exactly when all eight store reads are answered, and then each counter, the view sum and each of the three lists is the answer to its own read |
| BlogStats.GetHandler | src/pages/api/blog/stats.ts:4-80 | no token is read; exactly the eight reads in order; 200 with the statistics exactly when every read is answered, otherwise the fixed failure body |
| BlogStats.StatsFallbacks | src/pages/api/blog/stats.ts:50-58 | a null view sum counts as 0, likes are always 0, and the derived figures are 0 without posts |
| BlogStats.FailedCountersAreZero | src/pages/api/blog/stats.ts:65-78 | the failure answer is a 500 carrying the error and all six counters at zero |
| Contact.Row | src/pages/api/contact.ts:15-22 | the stored row has exactly the four fields, each as sent |
| Contact.PostHandler | src/pages/api/contact.ts:4-41 | an unparsable body is 500; a missing or falsy field is 400 with no write; otherwise exactly one contact write, answered by the fixed confirmation or 500 |
| Contact.AnyMissingFieldRejects | src/pages/api/contact.ts:8-13 | any one falsy field alone is enough for the 400 |
| Contact.ResponseIgnoresContent | src/pages/api/contact.ts:27-33 | the answer to an accepted message is the same confirmation whatever was sent, never the stored row |
| Upload.Validate | src/pages/api/upload/image.ts:6-29 | accepted exactly for a file entry with an `image/` type and at most 5 MiB; a missing or empty entry is 'No file provided'; every refusal is one of the three 400s; a non-empty text entry throws |
| Upload.TypeCheckedBeforeSize | src/pages/api/upload/image.ts:16-29 | a file that is neither an image nor small enough is refused as not an image |
| Upload.SizeLimitIsInclusive | src/pages/api/upload/image.ts:24 | exactly 5 MiB is accepted and one byte more refused |
| Upload.FilenameKeepsExtension | src/pages/api/upload/image.ts:35-37 | the generated name starts with `blog-image-` and ends, after its last dot, with the text after the original name's last dot |
| Upload.ImageHandler | src/pages/api/upload/image.ts:3-64 | an unreadable form is 500; a refusal is answered as validated; an accepted file gets 200 with the placeholder URL, the generated name, its size and its type |
| Upload.PlaceholderForEveryFile | src/pages/api/upload/image.ts:41-48 | every accepted upload gets the same URL, whatever the file and the time |
| BlobUpload.Sanitize | src/pages/api/upload/vercel-blob.ts:35 | the cleaned name is no longer than the original and holds only letters, digits, dots and hyphens |
| BlobUpload.SanitizeFixedPoint | src/pages/api/upload/vercel-blob.ts:35 | a name is left unchanged exactly when every character is already allowed |
| BlobUpload.SanitizeIdempotent | src/pages/api/upload/vercel-blob.ts:35 | cleaning twice is cleaning once |
| BlobUpload.BlobPathShape | src/pages/api/upload/vercel-blob.ts:33-35 | the path lies under `blog/` and ends with a hyphen followed by the cleaned name |
| BlobUpload.Failure | src/pages/api/upload/vercel-blob.ts:73-81 | a 500 'Upload failed' that carries `details` exactly in development, holding the error message |
| BlobUpload.BlobHandler | src/pages/api/upload/vercel-blob.ts:4-83 | validates like the image route; an accepted file gets 200 with the blob's URL and path, or, when the blob store rejects it, the placeholder body |
| BlobUpload.BlobFailureFallsBack | src/pages/api/upload/vercel-blob.ts:55-70 | a rejected blob upload still answers 200 with the placeholder, the original unsanitised name and a note |
| BlobUpload.SameValidationAsImage | src/pages/api/upload/vercel-blob.ts:9-30 | both upload routes refuse exactly the same forms with the same 400 responses |
| Seed.Insert | src/lib/seed.ts:35-39 | an upsert with an empty update: an existing key leaves the table and the id counter alone; a new key is stored with the next id |
| Seed.InsertAll | src/lib/seed.ts:34-40 | the upsert loop adds exactly the missing keys, keeps every existing row, changes nothing when every key is present, and every added row is one of the listed rows with a store-assigned id |
| Seed.WithAdmin | src/lib/seed.ts:9-24 | the admin account is hashed and created only when its email is absent; only that hash can fail; existing users are kept |
| Seed.WithPosts | src/lib/seed.ts:63-147 | the sample posts are upserted only when the admin and the `seo` category exist, adding exactly the two sample slugs, keeping existing posts, and each added post is one of the two sample rows (title, slug, excerpt, image, flags, SEO texts, read time, date, author and category) with its id |
| Seed.PostRowMembers | src/lib/seed.ts:74-135 | a sample row is published, dated by the clock, carries the given author, category, excerpt and SEO title, whatever id it gets |
| Seed.SeededPostsArePublished | src/lib/seed.ts:63-147 | every post the seeder adds is published and dated now, by the stored admin in the stored `seo` category, with its own excerpt and SEO title |
| Seed.WithSettings | src/lib/seed.ts:150-164 | the settings table gains the `default` row when absent, with all nine members of the source (titles, descriptions, keywords, canonical url, og image, twitter handle), and keeps its rows |
| Seed.AdminStep | src/lib/seed.ts:9-24 | fails exactly when the admin is absent and hashing throws; otherwise only the users and the id counter change |
| Seed.CategoriesStep | src/lib/seed.ts:27-41 | only the categories and the id counter change |
| Seed.TagsStep | src/lib/seed.ts:44-60 | only the tags and the id counter change |
| Seed.PostsStep | src/lib/seed.ts:63-147 | only the posts and the id counter change |
| Seed.SettingsStep | src/lib/seed.ts:150-165 | only the settings change |
| Seed.Seeded | src/lib/seed.ts:4-172 | no contract of its own: the admin step, then categories, tags, posts and settings in that order, stopping at a failed hash; its properties are SeededFailsOnlyOnHash, SeededContents, SeededKeepsExistingRows and SeededIdempotent |
| Seed.SeededFailsOnlyOnHash | src/lib/seed.ts:4-172 | a run fails exactly when the admin account is missing and hashing its password throws |
| Seed.SeededContents | src/lib/seed.ts:9-164 | after a successful run each table holds exactly its old keys plus the seeded ones: the admin, four categories, six tags, two posts and the default settings |
| Seed.SeededKeepsExistingRows | src/lib/seed.ts:34-164 | no existing row of any table is modified (every upsert's update is empty) |
| Seed.SeededIdempotent | src/lib/seed.ts:9-164 | seeding what a successful run left changes nothing, whatever the hash and the clock do the second time |
| Seed.StepsFixed | src/lib/seed.ts:9-164 | on a store that already holds every seeded key each step is the identity |
| Seed.Database.constructor | src/lib/seed.ts:4 | the store starts in the given state |
| Seed.Database.Upsert | src/lib/seed.ts:35-39 | one upsert into the given table, as Insert states, touching no other table |
| Seed.Database.UpsertAll | src/lib/seed.ts:34-40 | the upsert loop, as InsertAll states, touching no other table |
| Seed.Database.SeedAdmin | src/lib/seed.ts:9-24 | the store becomes AdminStep of the old state, or stays unchanged when hashing throws |
| Seed.Database.SeedCategories | src/lib/seed.ts:27-41 | the store becomes CategoriesStep of the old state |
| Seed.Database.SeedTags | src/lib/seed.ts:44-60 | the store becomes TagsStep of the old state |
| Seed.Database.SeedPosts | src/lib/seed.ts:63-147 | the store becomes PostsStep of the old state |
| Seed.Database.SeedSettings | src/lib/seed.ts:150-165 | the store becomes SettingsStep of the old state |
| Seed.Database.SeedDatabase | src/lib/seed.ts:4-172 | on success the store is exactly Seeded of the old state; on failure it is unchanged and the failure is passed on |
| Seed.SeedTwice | src/lib/seed.ts:4-172 | running the seeder twice leaves the store as the first run left it |
| AdminConfig.Browser.constructor | src/config/admin.ts:42-45 | a browser with the given window flag and localStorage contents |
| AdminConfig.SessionValid | src/config/admin.ts:42-55 | no contract of its own: `isAuthenticated()` as window, non-empty entry, a parse that succeeds and `expires > now` under JavaScript's number conversion; its properties are the lemmas below |
| AdminConfig.Browser.IsAuthenticated | src/config/admin.ts:42-55 | no contract of its own: SessionValid on this browser's window flag and storage |
| AdminConfig.Browser.Authenticate | src/config/admin.ts:57-68 | on the exact credentials the session entry becomes the JSON text with an expiry a day after `now` and the answer is true; wrong credentials change nothing and answer false; without a window the write throws |
| AdminConfig.Browser.Logout | src/config/admin.ts:70-72 | removes the session entry and nothing else; throws without a window |
| AdminConfig.FreshSessionLastsADay | src/config/admin.ts:42-64 | a session just stored counts as authenticated exactly while `now` is before its expiry a day later |
| AdminConfig.LoggedOutIsNotAuthenticated | src/config/admin.ts:45-46 | after logout nothing is authenticated, at any time |
| AdminConfig.NoWindowNoSession | src/config/admin.ts:43 | outside a browser nothing is authenticated |
| AdminConfig.FlagIsNotRead | src/config/admin.ts:49-51 | only `expires` decides; an entry saying `authenticated: false` is accepted just the same |
| AdminConfig.TextExpiryIsCompared | src/config/admin.ts:49-51 | an `expires` stored as decimal text, or as a one-element array of it, is compared as the number it spells |
| AdminConfig.ObjectExpiryNeverValid | src/config/admin.ts:49-51 | an `expires` that is missing or is an object never compares later than the clock |
| AdminConfig.LoginLogout | src/config/admin.ts:57-72 | login followed by logout leaves every other entry as it was and no valid session |
| AdminLogin.SessionRow | src/pages/api/admin/auth.ts:46-53 | the session row holds the token, the account's id and an expiry seven days after `now` |
| AdminLogin.Login | src/pages/api/admin/auth.ts:5-78 | an unreadable body is 500; missing credentials are 400 before any store call; an unknown account, a non-admin and a wrong password get the same 401 after one look-up; 200 exactly for an admin whose password matches, once the token is signed and the session row written, answering the public user, the token and the `admin-token` cookie; 400 exactly for missing credentials, and every other failure (a rejected look-up, a compare or signer throw, a rejected session write) is the 500 'Internal server error' |
| AdminLogin.PublicUserIdempotent | src/pages/api/admin/auth.ts:38-62 | rebuilding `{ id, email, name, role }` from an object of that shape changes nothing |
| AdminLogin.LoginSignsPublicFields | src/pages/api/admin/auth.ts:38-62 | a successful login signs exactly the account's public fields, and the body's user never carries the password hash |
| AdminLogin.SessionWindowMatchesCookie | src/pages/api/admin/auth.ts:46-68 | the session row's seven days, the cookie's Max-Age and the token lifetime are the same span |
| UserLogin.Login | src/pages/api/auth/login.ts:4-44 | an unreadable body is 500; missing credentials are 400 with no store call; 401 exactly when the account check gives nothing; 200 with the public user, the token and the `auth-token` cookie after exactly the one look-up; 400 exactly for missing credentials, and a signer throw is the 500 'Internal server error' |
| UserLogin.NoRoleRestriction | src/pages/api/auth/login.ts:15-24 | an account with role 'USER' and the right password logs in, and the answered user is no admin |
| UserLogin.NoSessionRow | src/pages/api/auth/login.ts:15-36 | the site login never writes to the store |
| Logout.Logout | src/pages/api/auth/logout.ts:3-11 | the same 200 `{ success: true }` for every call, with the clearing cookie header |
| Logout.LogoutClearsOnlyAuthToken | src/pages/api/auth/logout.ts:8 | the header clears `auth-token` and not `admin-token`: its pair names only `auth-token`, with an empty value |
| Cookie.SetCookieParts | src/pages/api/admin/auth.ts:68 | splitting a written header at `;` gives back the `name=value` pair and then each attribute in order |
| Cookie.LoginCookieAttributes | src/pages/api/admin/auth.ts:68 | the admin cookie is `Secure` and the site cookie (auth/login.ts line 34) is not; both announce a Max-Age of seven days |
| Cookie.SetCookie | src/pages/api/auth/login.ts:34 | no contract of its own: `name=value` and then the attributes, each after `; `; its properties are SetCookieParts and LoginCookieAttributes |
| I18n.SecondSegment | src/utils/i18n.ts:12 | a second `/`-separated piece exists exactly when the pathname holds a `/` |
| I18n.GetLangFromUrl | src/utils/i18n.ts:11-15 | always one of the five languages, and a language other than English only when the pathname's segment names it |
| I18n.GetLocalizedPath | src/utils/i18n.ts:32-37 | English paths unchanged; otherwise the path prefixed by `/` and the code, with the path itself at the end |
| I18n.GetAlternateLinks | src/utils/i18n.ts:39-44 | one link per language in declaration order, with `zh-CN` as the Chinese hreflang, each the site URL followed by the localized path |
| I18n.LanguagesAvoidSlash | src/utils/i18n.ts:1-7 | no language code contains the path separator |
| I18n.HasLanguageIff | src/utils/i18n.ts:11-30 | a pathname whose first segment is `seg` has a language exactly when `seg` is one, and its language is `seg` or else English |
| I18n.NoSlashNoLanguage | src/utils/i18n.ts:11-30 | a pathname without `/` has no language segment and is English |
| I18n.LangFromUrlMatchesHasLanguage | src/utils/i18n.ts:11-30 | the language read from a pathname is its segment exactly when the pathname has a language, and English otherwise |
| I18n.EnglishByDefault | src/utils/i18n.ts:23-30 | a pathname without a language segment is English by both helpers |
| I18n.LocalizedPathRoundTrip | src/utils/i18n.ts:11-37 | localizing a path into a non-English language and reading the language back gives that language |
| I18n.AlternateLinksRoundTrip | src/utils/i18n.ts:39-44 | each non-English alternate link leads back to its own language |
| I18n.AlternateLinksDistinct | src/utils/i18n.ts:39-44 | the five hreflang values are pairwise distinct |
| I18n.PrefixTestIsRawForEnglish | src/utils/i18n.ts:23-25 | the raw prefix test counts `/english` as English although its segment names no language |
| I18n.PrefixTestIsRawForSpanish | src/utils/i18n.ts:23-25 | `/espanol` passes the Spanish prefix test while the language read from it is English |
| Translations.GetTranslations | src/i18n/translations.ts:349-350 | the table of a known locale, and the English table for any other code |
| Translations.LocalesAreTheLanguages | src/i18n/translations.ts:1-347 | the locale codes of the tables are exactly the five routing languages |
| Translations.TranslationsForEveryLanguage | src/i18n/translations.ts:349-350 | every language the router can produce has its own table; any other code reads English |
| Translations.SixSkills | src/i18n/translations.ts:22-29 | every locale lists exactly six skills |
| Translations.LocalesDiffer | src/i18n/translations.ts:1-347 | the five locale tables are pairwise different |
| Seo.GenerateSEOTags | src/lib/seo.ts:17-68 | every absent field is taken from the site configuration; title, description and image are copied into the open-graph and twitter fields and the url into `canonical` and `ogUrl`; keywords are joined with `, `; the article fields exist exactly for type 'article', with tags defaulting to none |
| Seo.SEOTagsOfEmptyData | src/lib/seo.ts:18-30 | a page that passes nothing gets the site's title, description, url and image, as a website without article fields |
| Seo.GenerateStructuredData | src/lib/seo.ts:70-122 | always an object with `@context` and `@type`; 'person' is the site's schema verbatim; any other unknown kind is the base schema alone; the article and website members are stated by ArticleSchema and WebsiteSchema |
| Seo.StructuredDataTypes | src/lib/seo.ts:71-121 | every kind carries the schema.org context and the type its kind names (BlogPosting, WebSite, Person, otherwise Organization); an article without author names the site author |
| Seo.ArticleSchema | src/lib/seo.ts:77-101 | the article's headline is the title; description, image, datePublished and dateModified are the data's own members (absent when absent); the author is the data's truthy author or the site author; the publisher is the fixed organisation with its logo; mainEntityOfPage is a WebPage whose `@id` is the data's url; no other member appears |
| Seo.WebsiteSchema | src/lib/seo.ts:103-114 | the website schema is the same for every page data: the context, the type WebSite, the site name, url and description, and the fixed SearchAction, and nothing else |
| Seo.NonEmpty | src/lib/seo.ts:136 | `filter(Boolean)` keeps only non-empty pieces, each taken from the input |
| Seo.Segments | src/lib/seo.ts:136 | every segment is non-empty and free of `/` |
| Seo.CrumbName | src/lib/seo.ts:144 | a name as long as its segment, the first character upper-cased and every later `-` a space |
| Seo.GenerateBreadcrumbs | src/lib/seo.ts:135-152 | Home first, then one crumb per non-empty segment, named by CrumbName and linking to the path of the segments up to it |
| Seo.CrumbUrlsGrow | src/lib/seo.ts:141-148 | each crumb's url is a proper prefix of the next one's |
| Seo.CanonicalPathSegments | src/lib/seo.ts:135-149 | a canonical path `/a/b/c` gives back its segments, and its last crumb links to the path itself |
| Seo.EmptySegmentsDropped | src/lib/seo.ts:136 | a `//` or a trailing `/` adds no crumb |
| Seo.CrumbNameDashes | src/lib/seo.ts:144 | a leading `-` survives in the name and no later one does |
| Seo.BlockShape | src/lib/seo.ts:157-162 | a page's block opens with `<url>`, has a `<loc>` of the site url followed verbatim by the page url, an optional line that is blank exactly when its value is falsy (so priority 0 is left out), and closes with `</url>` |
| Seo.PageLines | src/lib/seo.ts:157-162 | six lines per page, in input order |
| Seo.SitemapIsJoin | src/lib/seo.ts:155-163 | the sitemap is the declaration, the `<urlset>` opening, the page blocks and the closing tag joined by line breaks |
| Seo.GenerateSitemap | src/lib/seo.ts:154-166 | no contract of its own: the template text; its properties are SitemapIsJoin, SitemapLines, SitemapEntry and EmptySitemap |
| Seo.SitemapLines | src/lib/seo.ts:154-166 | read back line by line, the sitemap is exactly those lines when no page field holds a line break |
| Seo.SitemapEntry | src/lib/seo.ts:157-162 | the lines of page k's entry among the sitemap's lines: its markers, its `<loc>` and the optional elements present exactly when truthy |
| Seo.EmptySitemap | src/lib/seo.ts:155-163 | without pages the url list is empty text, leaving one blank line inside `<urlset>` |
| Slug.SlugifyShape | src/pages/api/admin/posts.ts:136-138 | a derived slug holds only `[a-z0-9-]`, never two dashes in a row, and no leading or trailing dash |
| Slug.SlugifyKeepsAlphanumerics | src/pages/api/admin/posts.ts:136-138 | the slug keeps every `[a-z0-9]` character of the lower-cased title, in order, and no other |
| Slug.SlugifyIdempotent | src/pages/api/admin/posts.ts:136-138 | slugifying a slug leaves it unchanged |
| Slug.SlugifyEmpty | src/pages/api/admin/posts.ts:136-138 | the slug is empty exactly when the lower-cased title has no `[a-z0-9]` character |
| Slug.Slugify | src/pages/api/admin/posts.ts:136-138 | no contract of its own: lower-casing, then the dash collapse, then trimming one leading and one trailing dash; its properties are SlugifyShape, SlugifyKeepsAlphanumerics, SlugifyIdempotent and SlugifyEmpty |
| Slug.CollapseShape | src/pages/api/admin/posts.ts:137 | after `replace(/[^a-z0-9]+/g, '-')` only slug characters and single dashes remain, and the first character is a slug character exactly when the input's was |
| Slug.CollapseFixed | src/pages/api/admin/posts.ts:137 | the replacement leaves a text already of that shape unchanged |
| Slug.TrimCollapsed | src/pages/api/admin/posts.ts:138 | trimming one leading and one trailing dash from such a text gives a slug with the same slug characters |

## Behaviour worth noting

- Every gate answers a token that fails verification with 403 'Forbidden', not 401 (`Gate.Check`).
- Every store failure is a 500, a duplicate slug included, except in the site login: there `authenticateUser` catches a rejected look-up, so it is the same 401 as bad credentials (`Auth.AuthenticateUser`, `UserLogin.Login`). No handler maps a store conflict to 400 or 409.
- `details` appears in the blob upload's failure body only when `NODE_ENV` is exactly 'development' (`BlobUpload.Failure`).
- The site login's `auth-token` cookie carries no `Secure` flag. The admin login's `admin-token` cookie does (`Cookie.LoginCookieAttributes`).

## Left out

- Logging, the HTTP response and JSON serialisation, and header plumbing are not modelled: a response is a status, a JSON value and an optional `Set-Cookie` text.
- Cookie parsing, `request.formData()` and the parsing of the query string are not modelled. Handlers receive the cookies, parameters and form entry already parsed.
- `request.json()` is modelled as either a JSON object or a throw. A body that parses to a non-object (an array, a number, `null`) is not modelled.
- `JSON.parse` in the admin session store is an oracle parameter. `AdminConfig.FreshSessionLastsADay` assumes that it reads back what `JSON.stringify` wrote.
- AdminConfig.SessionValid: `expires > now` converts `expires` as JavaScript does for null, booleans, integers, integer text (with an optional sign and surrounding white space) and arrays. Text in any other number syntax (a fraction, an exponent, a hexadecimal, octal or binary literal, `Infinity`) is treated as NaN, and float precision beyond 2^53 is not modelled.
- Floating point is not modelled. `parseFloat`, `new Date(...)` and `toISOString()` are kept as uninterpreted conversions (`Json.JConv`) of their argument.
- BlogStats.AverageViewsBounds: `Math.round` is modelled as exact rational rounding, halves up. JavaScript's float division can round differently near a half, so only the bounds of exact rounding are proved.
- BlogStats.PublishRateIsPercentage: the same exact rounding is used for `Math.round(published / total * 100)`. The two can differ: 23 published posts of 40 give 58 in the model, but JavaScript computes `23 / 40 * 100` as 57.49999999999999 and rounds it to 57.
- Paging.PageCountIsCeiling: `Math.ceil(total / limit)` is exact integer ceiling division, without float rounding for totals beyond 2^53.
- Paging.IntParam: requires an absent or empty parameter, or one of decimal digits with a value of at least 1. `parseInt` of any other text (NaN, zero, negative, trailing junk) is not modelled.
- The sitemap priority's number formatting is not modelled. A priority is its numeric value together with the text JavaScript prints for it.
- The clock is a parameter `now` in milliseconds. Where the source reads `Date.now()` or `new Date()` twice in one handler, the model uses the same instant for both.
- Case mapping is ASCII only (`Text.Lower`, `Text.Upper`). Unicode case mapping, which can change length or map non-ASCII letters to ASCII, is not modelled. In the slug rule, every non-ASCII character acts as a separator.
- Membership tests such as `lang in languages` and `translations[lang]` are modelled on the five own keys. Names inherited through the JavaScript prototype chain, such as `toString`, are accepted by the source but not by the model.
- `useTranslations` (src/utils/i18n.ts:17-21) is not modelled. It indexes a module-local empty table, so its fallback reads `undefined` and throws; it is not a working lookup.
- The translation strings are transcribed as constants. That every locale has the same six sections with the same fields holds by the type `Translations.Table` and is not stated as a lemma.
- `Promise.all` is modelled as the list of independent reads in source order. Any failure makes the whole handler fail, and concurrency is not modelled.
- The store is an oracle (`Store.Db`). Prisma semantics are not modelled beyond the filter's meaning (`Store.Selects`) and the take bound (`Store.Answers`): ordering, skip and the relations an `include` adds to a row (author, category, tags, `_count`) are not modelled.
- Dashboard.RecentListsAreFiltered: states the filter and the bound of five, but not the newest-first or most-viewed order, which the store oracle leaves unstated.
- Taxonomy.ListByName: states the request, ordered by name ascending. The `_count` of posts it includes and the order of the rows the store returns are not stated.
- Seed: a failure inside the store during seeding, and the logged rethrow, are not modelled; the only modelled failure is the password hash.
- Seed.WithPosts: the two sample posts' `content` HTML is left out of the seeded rows. Every other member of the source's sample posts is part of them.
- bcrypt and JSON Web Tokens are oracles (`Auth.Bcrypt`, `Auth.Jwt`). Signature checking and token expiry are not modelled.
- The `@vercel/blob` `put` call is an oracle that returns a blob or throws.
- `src/lib/database.ts`, `src/pages/api/health.ts`, `src/pages/api/setup/database.ts`, `src/config/site.ts`, `astro.config.mjs` and the other routes are not part of this model. Of the site configuration, only the values the SEO helpers read are kept, as constants.
- A `tags` member that is an object with its own `length` is not modelled for the blog post's tag links. Only arrays, strings, `null` and values without `length` are distinguished (`BlogPosts.LinkRequest`).
