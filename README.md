# A verified model of the exact logic in the ephjos.io demos

The repository is a personal site together with the small programs behind its
blog posts. This project models the parts of those programs that are exact and
sequential, and proves what they promise:

- **Static-site generator** (`gen.c`).
  - It writes each post to `./build/<yyyy>/<mm>/<dd>/index.html` and creates every directory on the way, shortest first.
  - It copies `./static/` recursively below `./build/`.
  - It keeps four counters of bytes and files read and written.
  - Its paths are built in fixed-size `char` buffers with accumulating `sprintf` offsets. The model checks every such buffer against the text written into it.
- **Game-of-Life image filter** (`public/posts/2023/05/23/index.js`).
  - An image is dithered to black and white, then stepped with Conway's B3/S23 rule on a 300×300 torus.
  - The grid is stored in the low bit of the red byte of an RGBA buffer.
  - A run identifier stops superseded runs.
- **Ray tracer, CPU side** (`public/posts/ray-tracing-in-a-weekend/index.js`).
  - The serialiser of GLSL literals (`glslValue`), `createMaterial`, and `populateTemplate`, which writes the per-sphere declarations and hit tests into the shader source.
  - The random scene.
  - The two-texture ping-pong with its sample counter.
- **Buffon's-needle pi estimator** (`public/micro/2022/03/14.js`).
  - The common-prefix routine that picks how many digits to bold. As written it bolds one digit too few when the estimate is a prefix of pi.
  - The canvas resize check.
  - The random stick placements, the line positions, the crossing count and the vertex and colour buffers.
- **Three reactive widgets** (`old_public/blog/2022/09/05/section{0,1,2}.js`): a counter, a temperature converter and a flight booker. Each keeps its state behind a Proxy whose `set` trap writes and re-renders only when the value changes.
- **Data-oriented-design example** (`public/posts/data-oriented-design/_private`).
  - `gen.py` draws 2^20 value/flag pairs and writes them to `one_data`. It also writes them to `two_data`, pre-split into an included and an excluded list.
  - `one.c` sums the included values with a filter inside the loop. `two.c` sums the pre-filtered list.
  - The model proves that the two programs report the same sum and count.

The project has one module per program file:

| Module | Contents |
|---|---|
| `SiteGen` | `site_gen.dfy`: the `Generator` class; paths by `PostPath` and `NestedLength` |
| `GameOfLife` | `life.dfy`: the `LifeFilter` class; the rule by `NextShade` and `NextFrame`, dithering by `DitherShade` and `Dithered`, run ids by `RunId` |
| `Shader` | `shader.dfy`: `GlslValue`, `CreateMaterial`, `Declarations`, `HitBody` and `PopulateTemplate` |
| `RayTracer` | `raytracer.dfy`: the `Scene` and `CoreProgram` classes; `SampleRatio` |
| `PiEstimator` | `pi_estimator.dfy`: the `Canvas` and `Estimator` classes; `StartMatches`, `Overlay` (as written), `IntendedOverlay`, `CrossingCount`, `Lines`, `StickVertices`, `LineVertices` |
| `CounterWidget` | `counter.dfy` |
| `TemperatureWidget` | `temperature.dfy` |
| `FlightWidget` | `flight.dfy` |
| `NodeGen` | `nodes.dfy`, for `gen.py`: `Generate`, `Included`, `Excluded`, `EmitOne`, `EmitTwo` and the `DataFile` class |
| `FilterSum` | `filter_sum.dfy`, for `one.c`: `ToInt32`, `CNodes`, `IncludedSum`, `IncludedCount`, `FilteredSum` |
| `PackedSum` | `packed_sum.dfy`, for `two.c`: `Packed`, `Sum`, `SumIncluded` |
| `Wrappers`, `Decimal`, `Strings` | Shared helpers: `Result`/`Option`; integer to decimal text (`%d`, `${n}`, `str`); and `join`, `split`, `replaceAll` (with the `$` patterns of its replacement) and `split("T")[0]` on character sequences (`Strings.Join`, `Split`, `ReplaceAll`, `Substitution`, `Before`) |

Code that changes state in place is modelled as a class:

- the Life filter's `array<Byte>` buffers;
- the generator's counters, its `mkdir` log and its written files;
- the widget stores;
- the estimator's globals;
- the `CoreProgram` textures;
- the output files of `gen.py`.

Each method is proved against a specification function, and the properties are lemmas about those functions. Pure code (`glslValue`, `createMaterial`, `populateTemplate`, the list comprehensions of `gen.py`) is modelled as functions.

Where the world outside the program matters, it is a parameter:

- `Math.random()` and `random.randint` become draw functions `nat -> real` or `nat -> int`, indexed by call number;
- `toFixed(8)` becomes a formatter `real -> string`;
- `Math.cos`, `Math.sin` and the Bayer threshold become functions;
- `Date.prototype.toISOString` becomes a function from times to strings;
- the contents of files and directory listings are given to the methods that read them.

## Model

| member | source | states |
|---|---|---|
| SiteGen.Sprintf | gen.c:137-141 | `sprintf(buf+at, "%s", s)` writes `s` then a NUL at `at`, returns the length of `s`, keeps the bytes before `at`; the text and NUL must fit the buffer |
| SiteGen.ParseMd | gen.c:94-122 | the stub parser: title is the first character read, body is that character three times (`len` 3), date always 24/10/2022 |
| SiteGen.PostCount | gen.c:184-185 | the number of regular files in a listing, at most its length |
| SiteGen.NestedLengthAsWritten | gen.c:286-287 | the `n` passed to the nested `recursiveCopy` is `sprintf`'s count: the subdirectory path's length without its NUL |
| SiteGen.NestedLength | gen.c:298 | the corrected `n`: the path's length counting its NUL, as `sizeof(STATIC)` does at the top level |
| SiteGen.Generator.constructor | gen.c:303-305 | `initData`: all four counters 0, nothing created or written |
| SiteGen.Generator.Mkdirp | gen.c:126-132 | appends the directory to the `mkdir` log and changes nothing else |
| SiteGen.Generator.CopyFile | gen.c:199-229 | the chunked `fread`/`fwrite` loop leaves `dst` holding the whole of `src`; bytes read and bytes written each grow by its size, files read and written by one |
| SiteGen.Generator.WriteMd | gen.c:134-154 | creates the four post directories in order, writes the body to the post path, adds `md->len` to bytes written and 1 to files written |
| SiteGen.Generator.PostPathInto | gen.c:135-141 | fills the 30-byte buffer with exactly the post path, NUL-terminated, and logs the four directories in order |
| SiteGen.Generator.PostDirsInto | gen.c:137-140 | after the four `sprintf`/`mkdirp` pairs the buffer holds `./build/yyyy/mm/dd/` and the log has grown by the four prefixes, shortest first |
| SiteGen.Generator.YearDirInto | gen.c:137-138 | the first two pairs: the buffer holds `./build/yyyy/`, and `./build/` then `./build/yyyy/` are logged |
| SiteGen.Generator.SprintfDir | gen.c:138-140 | one `i += sprintf(buf+i, ...); mkdirp(buf)` step: the buffer holds the extended path, which is logged |
| SiteGen.Generator.GenPost | gen.c:156-173 | parses and writes the post, then counts one file read |
| SiteGen.Generator.GenPosts | gen.c:175-197 | generates every regular file of the listing in listing order and skips other entries |
| SiteGen.Generator.RecursiveCopy | gen.c:231-295 | given `n` at least the length of `dirname` plus one, creates `./build/` and `./build/dirname`, then processes every entry in order, with every buffer in bounds |
| SiteGen.Generator.CopyOne | gen.c:247-291 | one entry: a regular file is copied to `./build/` + `dirname` + name; a directory other than `.`, `..` and `..*` recursively; any other entry is ignored |
| SiteGen.Generator.CopyStatic | gen.c:297-299 | copies the listing of `./static/` with `n = sizeof(STATIC)` |
| SiteGen.Generator.Generate | gen.c:307-320 | `main` without the report: resets the counters, generates the posts, then copies the static tree |
| SiteGen.PostDirsInOrder | gen.c:137-143 | each directory created is a proper prefix of the next, the last is a proper prefix of the opened file, and each ends in `/` |
| SiteGen.PostPathShape | gen.c:137-141 | the output path is `./build/` + yyyy + `/` + mm + `/` + dd + `/` + `index.html` with unpadded `%d` decimals |
| SiteGen.PostPathLength | gen.c:135-141 | the path is 21 characters plus the decimals of the three numbers |
| SiteGen.PostPathFitsIff | gen.c:135 | the `sizeof(BUILD)+21` = 30-byte buffer holds path and NUL iff the three decimals take at most 8 characters |
| SiteGen.SmallDateFits | gen.c:135-141 | a non-negative year below 10000 and month and day below 100 always fit |
| SiteGen.FiveDigitYearOverflows | gen.c:135-141 | a year of five digits needs 31 bytes and does not fit |
| SiteGen.ParsedPostFits | gen.c:119-121 | every date `parse_md` produces fits the buffer |
| SiteGen.PostsBufferExact | gen.c:186-187 | `sizeof(POSTS) + strlen(name)` is exactly the length of `./posts/` + name plus its NUL |
| SiteGen.CopyBuffersFit | gen.c:240-243 | the target-directory and file-source buffers fit when `n` is at least the length of `dirname`, and the file's target buffer fits exactly (also lines 252-268) |
| SiteGen.SubdirBufferFitsIff | gen.c:280-286 | the subdirectory source buffer holds its path and NUL iff `n` exceeds the length of `dirname` |
| SiteGen.TopLevelSubdirFits | gen.c:298 | at the top level, where `n = sizeof(STATIC)`, every subdirectory buffer fits |
| SiteGen.AsWrittenNestedBufferShort | gen.c:280-287 | as written, one level down the subdirectory buffer is exactly one byte shorter than path plus NUL |
| SiteGen.AsWrittenNestedExample | gen.c:280-287 | `./static/a/b/` needs 14 bytes and gets 13 |
| SiteGen.NestedBufferFits | gen.c:280-287 | with the corrected `n` the recursion keeps `n` above the length of `dirname` and every nested buffer fits |
| SiteGen.DotEntries | gen.c:276 | the skip test holds exactly for `.` and for names starting with `..`, so `..x` is skipped and `.x` is not |
| SiteGen.PostsStats | gen.c:152-153 | over a listing, posts add nothing to bytes read, 3 per post to bytes written, and one per post to files read and to files written (also line 172) |
| SiteGen.CopyDirKeeps | gen.c:214-228 | a recursive copy adds equally to bytes read and written and to files read and written, only extends the `mkdir` log, and writes only below `./build/` + `dirname` |
| SiteGen.CopyEntriesKeeps | gen.c:247-291 | the same for the entries of a listing |
| SiteGen.CopyEntryKeeps | gen.c:251-290 | the same for one entry |
| SiteGen.GenerateStats | gen.c:307-320 | after `main`, files read equal files written, and bytes written exceed bytes read by three per post |
| SiteGen.StaticCopiesUnderBuildStatic | gen.c:242-243 | every file the static copy writes lies below `./build/./static/` |
| GameOfLife.CanvasGeometry | public/posts/2023/05/23/index.js:18-21 | with `canvas.width == state.w` the offset `get` reads is that of the model's fixed 300-wide layout; the buffer has 4 bytes per pixel |
| GameOfLife.RedIndexInRange | public/posts/2023/05/23/index.js:19 | the red byte of pixel (y, x) is at `4 (300 y + x)` and the pixel's four bytes lie inside the buffer |
| GameOfLife.ByteOwner | public/posts/2023/05/23/index.js:47 | every buffer byte belongs to exactly one pixel and channel (the inverse of the offset) |
| GameOfLife.ByteOwnerOfRedIndex | public/posts/2023/05/23/index.js:47 | the owner of pixel (y, x)'s channel c is (y, x, c) |
| GameOfLife.Prev | public/posts/2023/05/23/index.js:35-38 | the upper or left neighbour index stays in range |
| GameOfLife.Next | public/posts/2023/05/23/index.js:36-39 | the lower or right neighbour index stays in range |
| GameOfLife.NeighbourIndicesWrap | public/posts/2023/05/23/index.js:35-39 | the neighbour indices are `(i-1) mod n` and `(i+1) mod n`: the grid is a torus |
| GameOfLife.Cell | public/posts/2023/05/23/index.js:48 | a cell is the low bit of its red byte, 0 or 1 |
| GameOfLife.Neighbours | public/posts/2023/05/23/index.js:41-45 | the sum of the 8 neighbouring bits lies in 0..8 |
| GameOfLife.NextShadeIsLife | public/posts/2023/05/23/index.js:49-54 | the new shade is 255 iff B3/S23 says alive, and 0 otherwise |
| GameOfLife.NextFrame | public/posts/2023/05/23/index.js:30-61 | the next buffer is a function of the old buffer alone, of the same size |
| GameOfLife.NextFramePixel | public/posts/2023/05/23/index.js:56-59 | every output pixel has R = G = B = the new shade and alpha 255 |
| GameOfLife.NextFrameByte | public/posts/2023/05/23/index.js:56-59 | each output byte is its pixel's channel value |
| GameOfLife.NextFrameRow | public/posts/2023/05/23/index.js:37-60 | every pixel of a row of the next frame holds its new shade |
| GameOfLife.CellOfShade | public/posts/2023/05/23/index.js:48-56 | a pixel written with shade 0 or 255 reads back dead or alive respectively |
| GameOfLife.NextFrameFollowsLife | public/posts/2023/05/23/index.js:41-59 | reading the next frame, a cell is alive iff it had 3 neighbours, or 2 and was alive |
| GameOfLife.CellIsRead | public/posts/2023/05/23/index.js:47-48 | the cell is the red byte mod 2 |
| GameOfLife.Dithered | public/posts/2023/05/23/index.js:94-108 | the dithered buffer has the size of the original |
| GameOfLife.DitheredPixel | public/posts/2023/05/23/index.js:104-107 | all four channels of a pixel, alpha included, get the same shade |
| GameOfLife.QuarterOf | public/posts/2023/05/23/index.js:96 | byte 4p + c belongs to pixel p |
| GameOfLife.DitheredAt | public/posts/2023/05/23/index.js:95-107 | a channel of pixel (y, x) is 0 or 255, and 255 iff the average of R, G, B plus 255·bayer(x, y) is above 127 |
| GameOfLife.PixelCoordinates | public/posts/2023/05/23/index.js:96-97 | pixel number `300 y + x` has `bx = x` and `by = y` |
| GameOfLife.PixelOfByte | public/posts/2023/05/23/index.js:94-97 | the stride-4 byte index of (y, x, c) divided by 4 is the pixel number |
| GameOfLife.DitheredByte | public/posts/2023/05/23/index.js:94-107 | byte q of the dithered buffer is the shade of pixel q/4 |
| GameOfLife.RunIdsDistinct | public/posts/2023/05/23/index.js:147 | two runs of the same image URL with different counter values get different `src` strings |
| GameOfLife.RunIdsDistinctAcross | public/posts/2023/05/23/index.js:147 | when neither URL ends in a digit, different pairs of URL and counter give different `src` strings |
| GameOfLife.RunIdsCollideAcrossUrls | public/posts/2023/05/23/index.js:147 | the counter is appended without a separator, so URL `x1` at counter 0 and URL `x` at counter 10 share the `src` `x10` |
| GameOfLife.LifeFilter.constructor | public/posts/2023/05/23/index.js:11-14 | no state yet and `image_counter` 0 (also lines 160-163) |
| GameOfLife.LifeFilter.Get | public/posts/2023/05/23/index.js:18-21 | returns the byte at the red offset of (y, x) |
| GameOfLife.LifeFilter.Load | public/posts/2023/05/23/index.js:125-149 | fresh current and original buffers, both holding the drawn pixels; `src` is URL + old counter, and the counter grows by one |
| GameOfLife.LifeFilter.StepPixel | public/posts/2023/05/23/index.js:34-54 | computes the new shade of (i, j) from the unchanged current buffer |
| GameOfLife.LifeFilter.StepCell | public/posts/2023/05/23/index.js:47-59 | writes pixel (i, j) of the new buffer as the next frame has it, keeping the bytes before it |
| GameOfLife.LifeFilter.StepRow | public/posts/2023/05/23/index.js:37-60 | after row i the new buffer agrees with the next frame up to the start of row i+1 |
| GameOfLife.LifeFilter.Gol | public/posts/2023/05/23/index.js:25-67 | a stale or missing run changes nothing; otherwise the current buffer becomes a fresh one holding `NextFrame` of the old, nothing else changing |
| GameOfLife.LifeFilter.Shade | public/posts/2023/05/23/index.js:95-103 | computes the dithered shade of the pixel at byte i from the original buffer |
| GameOfLife.LifeFilter.Paint | public/posts/2023/05/23/index.js:104-107 | writes the shade into the pixel's four bytes, keeping the bytes before it |
| GameOfLife.LifeFilter.Dither | public/posts/2023/05/23/index.js:89-112 | a stale or missing run changes nothing; otherwise the current buffer becomes `Dithered` of the original |
| Shader.GlslList | public/posts/ray-tracing-in-a-weekend/index.js:25 | the `map(glslValue)` over an array succeeds iff every element does, giving each element's literal in order |
| Shader.GlslValueSucceeds | public/posts/ray-tracing-in-a-weekend/index.js:12-29 | `glslValue` returns rather than throws exactly for strings, numbers and non-empty arrays of such values, recursively |
| Shader.GlslValueAvoids | public/posts/ray-tracing-in-a-weekend/index.js:12-26 | a foreign character (no digit, lower-case letter or `_ (),;=`) in no input string and no formatted number is absent from the literal |
| Shader.TypeCode | public/posts/ray-tracing-in-a-weekend/index.js:4-8 | the material type codes are 0, 1, 2 |
| Shader.WithDefaults | public/posts/ray-tracing-in-a-weekend/index.js:215-217 | the material with every missing field filled in, type unchanged |
| Shader.MissingIsDefault | public/posts/ray-tracing-in-a-weekend/index.js:215-217 | a missing albedo, fuzz or index of refraction serialises as `[0,0,0]`, `1` and `0` written out |
| Shader.CreateMaterialSucceeds | public/posts/ray-tracing-in-a-weekend/index.js:213-219 | `createMaterial` returns exactly when its three printed fields (after defaults) are literals, and then its text is `material(type, albedo, fuzz, ior)` |
| Shader.ZeroFuzzKept | public/posts/ray-tracing-in-a-weekend/index.js:216 | an explicit fuzz 0 is kept, giving a different material text from a missing fuzz (which becomes 1) |
| Shader.SphereNamesDistinct | public/posts/ray-tracing-in-a-weekend/index.js:224-230 | different indices give different `sphere_i` names |
| Shader.Declaration | public/posts/ray-tracing-in-a-weekend/index.js:223-226 | a successful declaration starts with `const sphere sphere_i = sphere(` |
| Shader.DeclarationSucceeds | public/posts/ray-tracing-in-a-weekend/index.js:225 | the declaration throws iff a value it prints is not a literal |
| Shader.Declarations | public/posts/ray-tracing-in-a-weekend/index.js:222-226 | succeeds with one declaration per sphere, in scene order, sphere i named by its index |
| Shader.NatAvoids | public/posts/ray-tracing-in-a-weekend/index.js:224 | a decimal index holds no character other than digits |
| Shader.MaterialAvoids | public/posts/ray-tracing-in-a-weekend/index.js:213-219 | a material text holds a foreign character only if a value it prints or the formatter does |
| Shader.DeclarationAvoids | public/posts/ray-tracing-in-a-weekend/index.js:223-226 | a declaration holds a foreign character only if a value it prints or the formatter does |
| Shader.HeadAvoids | public/posts/ray-tracing-in-a-weekend/index.js:225 | the declaration head holds no foreign character |
| Shader.DefinitionsAvoid | public/posts/ray-tracing-in-a-weekend/index.js:222-227 | the joined definitions hold a foreign character other than newline only if a printed value or the formatter does |
| Shader.JoinAvoids | public/posts/ray-tracing-in-a-weekend/index.js:25 | a character in neither the separator nor any part is absent from the join |
| Shader.DefinitionsAreLines | public/posts/ray-tracing-in-a-weekend/index.js:222-227 | for k ≥ 1 spheres the definitions split on newlines into exactly k lines, line i being sphere i's declaration, named `sphere_i` |
| Shader.HitBodyAppend | public/posts/ray-tracing-in-a-weekend/index.js:228-238 | the body for k+1 spheres is the body for k, a newline and test k: tests follow scene order |
| Shader.HitBodyTestsEverySphere | public/posts/ray-tracing-in-a-weekend/index.js:229-236 | the body holds the hit test (`sphere_hit(sphere_i, ...)`, `closest_so_far = rec.t`) of every sphere below k |
| Shader.HitBodyAvoidsDollar | public/posts/ray-tracing-in-a-weekend/index.js:228-238 | the hit body holds no `$`, so `replaceAll` inserts it as written |
| Shader.PopulateFails | public/posts/ray-tracing-in-a-weekend/index.js:240-244 | `populateTemplate` throws iff building the definitions throws |
| Shader.DeclarationsFail | public/posts/ray-tracing-in-a-weekend/index.js:222-226 | the declarations throw iff some sphere prints a non-literal |
| Shader.PopulateWithoutPlaceholders | public/posts/ray-tracing-in-a-weekend/index.js:240-244 | a shader with none of the four placeholders comes back unchanged |
| Shader.PopulateReplacesEveryOccurrence | public/posts/ray-tracing-in-a-weekend/index.js:240-244 | when no string of the scene and no formatted number holds `$`, each of the four `replaceAll` steps is the split/join replacement of every occurrence of its placeholder; `{{NUM_MATERIALS}}` becomes `0` for an empty material list |
| RayTracer.Vec3Literal | public/posts/ray-tracing-in-a-weekend/index.js:257-278 | a three-number centre or albedo is a literal |
| RayTracer.Scene.constructor | public/posts/ray-tracing-in-a-weekend/index.js:248-253 | the reset that begins `createRandomScene`: no materials, no spheres and depth 50 |
| RayTracer.Scene.PlaceSphere | public/posts/ray-tracing-in-a-weekend/index.js:277-322 | one cell uses three draws or more; a sphere of radius 0.2 at height 0.2 is pushed exactly when its centre is over 0.9 from (4, 0.2, 0); its material follows `choose_mat` (< 0.8 diffuse, < 0.95 metal, else glass); `materials` stays empty |
| RayTracer.Scene.CreateRandomScene | public/posts/ray-tracing-in-a-weekend/index.js:247-349 | depth 50, no materials, ground sphere first, the three radius-1 spheres last, only small spheres between, 4..76 spheres, every value a literal |
| RayTracer.RandomScenePopulates | public/posts/ray-tracing-in-a-weekend/index.js:222-244 | a world whose spheres print only literals never makes `populateTemplate` throw |
| RayTracer.SampleRatio | public/posts/ray-tracing-in-a-weekend/index.js:417 | `samples/(samples+1)` lies in [0, 1) and is 0 exactly for the first sample |
| RayTracer.SampleRatioGrows | public/posts/ray-tracing-in-a-weekend/index.js:417-425 | more samples give a strictly larger weight to the accumulated image |
| RayTracer.RatioGrows | public/posts/ray-tracing-in-a-weekend/index.js:417 | `x/(x+1)` is strictly increasing for x ≥ 0 |
| RayTracer.CoreProgram.constructor | public/posts/ray-tracing-in-a-weekend/index.js:127-146 | two distinct textures and no samples |
| RayTracer.CoreProgram.Update | public/posts/ray-tracing-in-a-weekend/index.js:401-426 | reads `textures[0]`, writes `textures[1]` (distinct), passes the weight for the old count, then the textures are swapped and `samples` grows by one |
| RayTracer.CoreProgram.Render | public/posts/ray-tracing-in-a-weekend/index.js:427-444 | displays `textures[0]` |
| RayTracer.CoreProgram.Frame | public/posts/ray-tracing-in-a-weekend/index.js:449-451 | each frame displays the texture its update has just written |
| PiEstimator.CommonPrefixLength | public/micro/2022/03/14.js:33-39 | the number of leading positions where the strings agree: the prefixes agree, and it is at most the shorter length, with a difference right after it if it is smaller |
| PiEstimator.GetStringStartMatches | public/micro/2022/03/14.js:33-41 | the loop returns `StartMatches`: the first differing index if one lies below `min(len)`, and otherwise `min(len) - 1` |
| PiEstimator.StartMatches | public/micro/2022/03/14.js:33-41 | in [-1, min(len) - 1] with every earlier character equal; the first difference when the strings differ below `min(len)`, `min(len) - 1` when they do not |
| PiEstimator.PrefixOfCommon | public/micro/2022/03/14.js:35-39 | an agreeing prefix followed by a difference or the shorter end is the common prefix |
| PiEstimator.StartMatchesDropsLastDigit | public/micro/2022/03/14.js:40 | for the estimate `3.14` the routine returns 3 though 4 characters agree with pi |
| PiEstimator.OverlayDropsLastDigit | public/micro/2022/03/14.js:49-51 | for the estimate `3.14` the program writes `<b>3.1</b>4`, where the intended overlay is `<b>3.14</b>` |
| PiEstimator.OverlayAgainstIntended | public/micro/2022/03/14.js:49-51 | the overlay as written equals the intended one unless the estimate is a prefix of pi or pi of it, when it bolds one character fewer |
| PiEstimator.SliceOfStartMatches | public/micro/2022/03/14.js:49-51 | where `slice` cuts at the routine's index, compared with the common prefix length |
| PiEstimator.BoldPartIsLongestMatch | public/micro/2022/03/14.js:49-51 | the intended overlay bolds the longest prefix of the estimate that is a prefix of pi |
| PiEstimator.LongestCommonPrefix | public/micro/2022/03/14.js:33-40 | the common prefix is a prefix of the other string, and one more character would not be |
| PiEstimator.Canvas.constructor | public/micro/2022/03/14.js:14-17 | a canvas with the given buffer and display sizes |
| PiEstimator.Canvas.ResizeToDisplaySize | public/micro/2022/03/14.js:14-30 | afterwards the buffer size equals the display size, and the result is true iff it did not before |
| PiEstimator.Canvas.ResizeTwice | public/micro/2022/03/14.js:14-30 | a second call returns false; the buffer size is the client size, which neither call changes |
| PiEstimator.CrossesIffLineInside | public/micro/2022/03/14.js:199-207 | over increasing line positions the early-exit scan finds a crossing iff some line lies within [l, h] |
| PiEstimator.CrossingCount | public/micro/2022/03/14.js:186-208 | the crossing count is at most the number of sticks |
| PiEstimator.LinePositions | public/micro/2022/03/14.js:176-183 | `xs` has `spaces + 2` entries, entry k being `-1 + k gap` |
| PiEstimator.LinePositionsIncrease | public/micro/2022/03/14.js:177-183 | with a positive gap the positions strictly increase |
| PiEstimator.CountCrossings | public/micro/2022/03/14.js:186-208 | the loop counts each stick at most once, giving the crossing count, at most the number of sticks |
| PiEstimator.ScanLines | public/micro/2022/03/14.js:199-207 | the inner `for ... of` loop with its two `break`s decides whether the stick crosses |
| PiEstimator.Repeat | public/micro/2022/03/14.js:231-238 | n copies of a colour have n times its length |
| PiEstimator.RepeatAt | public/micro/2022/03/14.js:231-233 | vertex v of n copies of a four-channel colour is that colour |
| PiEstimator.Colors | public/micro/2022/03/14.js:229-238 | the colour buffer is `2 sticks` red vertices followed by `2 (spaces + 1)` grey ones |
| PiEstimator.ColorLayout | public/micro/2022/03/14.js:229-238 | the colour buffer has four channels for each of the `sticks*2 + (spaces+1)*2` vertices drawn, red for the sticks and grey for the lines (also lines 330-334) |
| PiEstimator.StickVertices | public/micro/2022/03/14.js:195 | four numbers per stick |
| PiEstimator.LineVertices | public/micro/2022/03/14.js:211-214 | four numbers per line position |
| PiEstimator.StickVerticesSnoc | public/micro/2022/03/14.js:187-195 | one more stick appends its centre and far end |
| PiEstimator.StickVerticesAt | public/micro/2022/03/14.js:195 | stick i occupies vertices 2i and 2i+1: centre, then far end |
| PiEstimator.LineVerticesAt | public/micro/2022/03/14.js:211-214 | line k occupies two vertices `(x, -1)` and `(x, 1)` |
| PiEstimator.PositionLayout | public/micro/2022/03/14.js:185-214 | the position buffer holds every stick's vertices, then every line's, `2 (spaces + 2)` line vertices, two more than the `(spaces+1)*2` drawn (also lines 330-334) |
| PiEstimator.StickSlot | public/micro/2022/03/14.js:195 | stick i's vertices sit at the same place in the whole buffer |
| PiEstimator.LineSlot | public/micro/2022/03/14.js:211-214 | line k's vertices follow all the stick vertices |
| PiEstimator.Estimator.constructor | public/micro/2022/03/14.js:3-11 | the initial globals (4 spaces, 1000 sticks of length 0.4, no estimate shown, not searching) and placements from the draws (also line 143) |
| PiEstimator.Estimator.InitRands | public/micro/2022/03/14.js:151-161 | the old placements are discarded; each of the three arrays has exactly `sticks` entries, stick i from draws 3i, 3i+1, 3i+2 |
| PiEstimator.Estimator.SetLines | public/micro/2022/03/14.js:57-60 | `spaces = lines - 1`; the sticks, their placements, the stick length, the last estimate, the overlay and the search flag are kept |
| PiEstimator.Estimator.SetSticks | public/micro/2022/03/14.js:62-66 | `sticks = 10^power` and fresh placements for all of them; the spaces, stick length, last estimate, overlay and search flag are kept |
| PiEstimator.Estimator.FarEnds | public/micro/2022/03/14.js:191-194 | one far end per stick |
| PiEstimator.Estimator.Positions | public/micro/2022/03/14.js:185-214 | the position buffer is the sticks' vertices followed by the lines' |
| PiEstimator.Estimator.PushLines | public/micro/2022/03/14.js:211-214 | appends the line vertices |
| PiEstimator.Estimator.SetBuffers | public/micro/2022/03/14.js:164-246 | re-places the sticks only while searching, then gives the buffers `Buffers` gives for the new placements; the counts, stick length, last estimate, overlay and search flag are kept (the estimate step at 14.js:217-221 is not part of this method) |
| PiEstimator.Estimator.Buffers | public/micro/2022/03/14.js:172-246 | the crossing count is the count over the line layout and at most `sticks`; the position buffer holds the stick vertices then the line vertices, the colour buffer red for sticks then grey for lines |
| PiEstimator.Estimator.SetEstimation | public/micro/2022/03/14.js:44-53 | an estimate equal to the last one shown changes no field; a new one is remembered and the overlay bolds its first `getStringStartMatches` characters, as written |
| PiEstimator.Lines | public/micro/2022/03/14.js:176-183 | the line layout has `spaces + 2` positions |
| PiEstimator.LinesAre | public/micro/2022/03/14.js:176-183 | positions `-1 + k gap` for every k are the line layout |
| PiEstimator.LineLayout | public/micro/2022/03/14.js:176-183 | positions increase from -1, position `spaces` is exactly 1, and the last lies one gap beyond it |
| PiEstimator.StickCrossesIffLineInside | public/micro/2022/03/14.js:197-207 | over the line layout a stick counts as crossing iff some line position lies within its x extent |
| CounterWidget.Counter.constructor | old_public/blog/2022/09/05/section0.js:6-8 | the count starts at 0 and the first render shows it (also line 29) |
| CounterWidget.Counter.Render | old_public/blog/2022/09/05/section0.js:21-23 | the input shows the count, and the store is unchanged |
| CounterWidget.Counter.Set | old_public/blog/2022/09/05/section0.js:10-17 | the count becomes the value; a different value renders once, and an equal one renders nothing and changes nothing shown |
| CounterWidget.Counter.Click | old_public/blog/2022/09/05/section0.js:25-27 | the count grows by exactly one, stays equal to the number of clicks, never decreases, and is shown |
| TemperatureWidget.CelsiusRoundTrip | old_public/blog/2022/09/05/section1.js:29-33 | Celsius to Fahrenheit and back is the identity |
| TemperatureWidget.FahrenheitRoundTrip | old_public/blog/2022/09/05/section1.js:29-33 | Fahrenheit to Celsius and back is the identity |
| TemperatureWidget.ConsistentEitherWay | old_public/blog/2022/09/05/section1.js:29-33 | `f = c·9/5 + 32` iff `c = (f − 32)·5/9` |
| TemperatureWidget.ToFahrenheitInjective | old_public/blog/2022/09/05/section1.js:29 | different temperatures convert differently |
| TemperatureWidget.InitialConsistent | old_public/blog/2022/09/05/section1.js:6-9 | 0 °C and 32 °F are the same temperature |
| TemperatureWidget.Thermometer.constructor | old_public/blog/2022/09/05/section1.js:6-9 | the initial store 0/32, consistent and shown (also line 37) |
| TemperatureWidget.Thermometer.Render | old_public/blog/2022/09/05/section1.js:22-25 | both inputs show the store, which is unchanged |
| TemperatureWidget.Thermometer.SetCelsius | old_public/blog/2022/09/05/section1.js:11-18 | writes Celsius; re-renders only if it changed |
| TemperatureWidget.Thermometer.SetFahrenheit | old_public/blog/2022/09/05/section1.js:11-18 | writes Fahrenheit; re-renders only if it changed |
| TemperatureWidget.Thermometer.ChangeCelsius | old_public/blog/2022/09/05/section1.js:27-30 | Fahrenheit becomes `c·9/5 + 32`, the pair stays consistent and shown, with two renders for a changed value and none otherwise |
| TemperatureWidget.Thermometer.ChangeFahrenheit | old_public/blog/2022/09/05/section1.js:32-35 | Celsius becomes `(f − 32)·5/9`, with the same guarantees |
| FlightWidget.Date.constructor | old_public/blog/2022/09/05/section2.js:15-16 | a date object holding the given time |
| FlightWidget.InputStringIsDay | old_public/blog/2022/09/05/section2.js:30-32 | for an ISO text `day T clock` the input shows `day` |
| FlightWidget.InputStringIsPrefix | old_public/blog/2022/09/05/section2.js:31 | the input string is a prefix of the ISO text with no `T` |
| FlightWidget.Bookable | old_public/blog/2022/09/05/section2.js:38-39 | one-way flights and equal dates are always bookable; a return flight is blocked iff it returns before it starts |
| FlightWidget.OneWayMessage | old_public/blog/2022/09/05/section2.js:54-57 | a one-way message is the fixed text `You have booked a one-way flight on ` and the start date; the return date plays no part |
| FlightWidget.RoundTripMessage | old_public/blog/2022/09/05/section2.js:54-57 | a round-trip message is `You have booked a round trip flight on `, start, `, returning `, return |
| FlightWidget.MessageNamesKind | old_public/blog/2022/09/05/section2.js:55 | a one-way message never equals a round-trip one |
| FlightWidget.Booker.constructor | old_public/blog/2022/09/05/section2.js:13-17 | one-way with both dates now; the first render disables the return input and enables the button (also line 60) |
| FlightWidget.Booker.Render | old_public/blog/2022/09/05/section2.js:34-40 | shows the type and the two input strings; return disabled iff one-way; button disabled iff return and start later than return |
| FlightWidget.Booker.SetType | old_public/blog/2022/09/05/section2.js:19-26 | the type becomes the value; re-renders only if it changed (`!==`) |
| FlightWidget.Booker.SetStart | old_public/blog/2022/09/05/section2.js:19-26 | the start becomes the object; re-renders only if it is a different object |
| FlightWidget.Booker.SetReturn | old_public/blog/2022/09/05/section2.js:19-26 | the same for the return date |
| FlightWidget.Booker.ChangeType | old_public/blog/2022/09/05/section2.js:42-44 | the new type is stored and the return input is disabled iff it is one-way |
| FlightWidget.Booker.ChangeStart | old_public/blog/2022/09/05/section2.js:46-48 | a new date object always renders once |
| FlightWidget.Booker.ChangeReturn | old_public/blog/2022/09/05/section2.js:50-52 | a new date object always renders once |
| FlightWidget.Booker.Book | old_public/blog/2022/09/05/section2.js:54-57 | the alert text is the booking message for the current store |
| NodeGen.Generate | public/posts/data-oriented-design/_private/gen.py:5-9 | exactly `NODES = 2^20` pairs, pair k from draw k, values in the written range [-2^31, 2^31] and flags 0 or 1 |
| NodeGen.Included | public/posts/data-oriented-design/_private/gen.py:19 | a sub-list of `xs`, every element with flag 1 |
| NodeGen.Excluded | public/posts/data-oriented-design/_private/gen.py:26 | a sub-list of `xs`, every element with flag 0 |
| NodeGen.FilterConcat | public/posts/data-oriented-design/_private/gen.py:19-26 | the filters distribute over concatenation, so they keep order |
| NodeGen.Singleton | public/posts/data-oriented-design/_private/gen.py:19-26 | a node is kept by the filter matching its flag |
| NodeGen.Partition | public/posts/data-oriented-design/_private/gen.py:19-26 | with 0/1 flags the lengths add up to `len(xs)` and the two lists together are a permutation of `xs` |
| NodeGen.GeneratedPartition | public/posts/data-oriented-design/_private/gen.py:9-26 | for generated data, whatever the values drawn, `len(included) + len(excluded) == NODES` and the two lists hold exactly the nodes |
| NodeGen.Pad6 | public/posts/data-oriented-design/_private/gen.py:15 | `{a:6}` right-aligns the decimal in six columns with spaces |
| NodeGen.Header | public/posts/data-oriented-design/_private/gen.py:12-13 | the two lines before a list |
| NodeGen.DataFile.constructor | public/posts/data-oriented-design/_private/gen.py:11 | a file opened with `"w"` is empty |
| NodeGen.DataFile.Write | public/posts/data-oriented-design/_private/gen.py:12 | `f.write` appends its text |
| NodeGen.DataFile.WriteLines | public/posts/data-oriented-design/_private/gen.py:14-15 | the `for` loop appends one line per node, in order |
| NodeGen.DataFile.WriteLine | public/posts/data-oriented-design/_private/gen.py:16 | appends one line |
| NodeGen.EmitOne | public/posts/data-oriented-design/_private/gen.py:11-16 | `one_data` is the lines of its header, every node and the closing brace |
| NodeGen.EmitTwo | public/posts/data-oriented-design/_private/gen.py:18-31 | `two_data` is the lines of the included list, an empty line, and the excluded list |
| NodeGen.EmitList | public/posts/data-oriented-design/_private/gen.py:20-24 | one list: its header, one line per node, the closing brace |
| NodeGen.OneDataListsNodes | public/posts/data-oriented-design/_private/gen.py:11-16 | read back line by line, `one_data` declares `NUM_NODES` as the number of nodes, then lists every pair in the order of `xs`, then `};` |
| NodeGen.TwoDataListsNodes | public/posts/data-oriented-design/_private/gen.py:20-31 | `two_data` declares each list's length as the count of its nodes and lists them in order, separated by `};` and an empty line |
| NodeGen.TwoDataReadBack | public/posts/data-oriented-design/_private/gen.py:18-31 | read back line by line, `two_data` gives exactly the lines written |
| NodeGen.TwoDataAvoidsNewlines | public/posts/data-oriented-design/_private/gen.py:20-31 | no line of `two_data` holds a newline |
| NodeGen.NodeLinesAvoidNewlines | public/posts/data-oriented-design/_private/gen.py:15-23 | no node line holds a newline |
| NodeGen.HeaderAvoidsNewlines | public/posts/data-oriented-design/_private/gen.py:12-13 | no header line holds a newline |
| FilterSum.ToInt32 | public/posts/data-oriented-design/_private/one.c:4-7 | the initialiser's conversion to `int`: congruent modulo 2^32 and the value itself when it fits |
| FilterSum.IncludedCount | public/posts/data-oriented-design/_private/one.c:15-21 | the number of included nodes, at most the number of nodes |
| FilterSum.IncludedConcat | public/posts/data-oriented-design/_private/one.c:15-21 | sum and count split over a concatenation |
| FilterSum.ExcludedIgnored | public/posts/data-oriented-design/_private/one.c:17 | a node with `include` false, anywhere, changes neither sum nor count |
| FilterSum.IncludedCounted | public/posts/data-oriented-design/_private/one.c:17-19 | an included node adds its value to the sum and one to the count |
| FilterSum.IncludedSumBound | public/posts/data-oriented-design/_private/one.c:18 | each included node moves the sum by at most one `int` |
| FilterSum.FilteredSum | public/posts/data-oriented-design/_private/one.c:11-21 | with the partial sums in `int` range, `sum` is the sum of the included values and `count` their number, at most `NUM_NODES` |
| FilterSum.FilteredSumWide | public/posts/data-oriented-design/_private/one.c:11-21 | with a 64-bit `sum` the same results hold for up to 2^20 nodes unconditionally |
| FilterSum.SumCanOverflow | public/posts/data-oriented-design/_private/one.c:12-18 | two included nodes of value INT_MAX, a drawable value, overflow the 32-bit `sum` |
| FilterSum.AsWrittenTopValueWraps | public/posts/data-oriented-design/_private/gen.py:9 | the drawn value 2147483648 becomes -2147483648 in `nodes`, so an included node of it adds -2^31 to the sum |
| FilterSum.GeneratedValuesKept | public/posts/data-oriented-design/_private/gen.py:9 | with values drawn from the range of a C `int`, `nodes` holds exactly the values and flags generated |
| PackedSum.SumBound | public/posts/data-oriented-design/_private/two.c:14 | each value moves the sum by at most one `int` |
| PackedSum.SumIncluded | public/posts/data-oriented-design/_private/two.c:10-17 | with the partial sums in `int` range, `sum` is the sum of the array and the count reported is its length |
| PackedSum.SumIncludedWide | public/posts/data-oriented-design/_private/two.c:10-17 | with a 64-bit `sum` the same holds for up to 2^20 nodes unconditionally |
| PackedSum.PackedSnoc | public/posts/data-oriented-design/_private/gen.py:19-23 | appending a node appends its converted value to the packed list iff its flag is 1 |
| PackedSum.SameReport | public/posts/data-oriented-design/_private/two.c:13-17 | for the same nodes, one.c's sum and count over `one_data` equal two.c's sum and `NUM_INCLUDED_NODES` over `two_data` |
| PackedSum.SameOverflow | public/posts/data-oriented-design/_private/two.c:11-14 | one.c's 32-bit sum stays in range at every step iff two.c's does |
| PackedSum.OneFitsSnoc | public/posts/data-oriented-design/_private/one.c:15-19 | one.c's sums fit for a prefix and one more node iff they fit for the prefix and the new total fits |
| PackedSum.TwoFitsSnoc | public/posts/data-oriented-design/_private/two.c:13-14 | the same for two.c |
| PackedSum.GeneratedSameReport | public/posts/data-oriented-design/_private/gen.py:9-31 | for one generator run, 2^31 draws included, the two programs report the same sum and count and overflow together |
| Decimal.ParseIntToString | gen.c:138-140 | the `%d` text of an integer reads back as that integer |
| Decimal.IntToStringInjective | gen.c:138-140 | different integers have different `%d` texts |
| Decimal.NatToStringLength | gen.c:138-140 | a natural below 10^k has at most k digits |
| Strings.ReplaceAllIsSplitJoin | public/posts/ray-tracing-in-a-weekend/index.js:240-244 | for a replacement without `$`, `replaceAll` is splitting on the pattern and joining with the replacement |
| Strings.ReplaceAllReplaces | public/posts/ray-tracing-in-a-weekend/index.js:240-244 | for a replacement without `$`, every occurrence is replaced and none of the pattern remain among the pieces |
| Strings.ReplaceAllWithoutPattern | public/posts/ray-tracing-in-a-weekend/index.js:240-244 | text without the pattern is unchanged, whatever the replacement |
| Strings.ReplaceAllLiteral | public/posts/ray-tracing-in-a-weekend/index.js:240-244 | with a replacement holding no `$`, `replaceAll` writes the replacement as it is |
| Strings.SubstitutionWithoutDollar | public/posts/ray-tracing-in-a-weekend/index.js:240-244 | a replacement without `$` stands for itself at every match |
| Strings.ReplaceAllKeepsMatch | public/posts/ray-tracing-in-a-weekend/index.js:240-244 | `$&` in a replacement is the match: replacing `p` by `$&` leaves `p` |
| Strings.JoinSplit | public/posts/ray-tracing-in-a-weekend/index.js:227 | joining the pieces of a split gives the text back |
| Strings.SplitJoin | public/posts/ray-tracing-in-a-weekend/index.js:222-238 | splitting a join whose parts avoid the separator gives the parts back |
| Strings.BeforeSpec | old_public/blog/2022/09/05/section2.js:31 | `split("T")[0]` is the longest prefix without `T` |
| Strings.SplitLines | public/posts/data-oriented-design/_private/gen.py:12-31 | the text of lines each ended by a newline splits into those lines and an empty last piece |

## Left out

- **Browser and GPU.**
  - The DOM, Canvas and WebGL calls are left out: shader compile and link, buffers, textures, `drawArrays`, `putImageData` and the fetched `index.frag`.
  - `requestAnimationFrame`, `setTimeout`, `FileReader`/`Image` loading and `alert` are left out too. DOM state is kept only as ghost "shown" fields and render counters. GPU textures are opaque handles.
- **Floating point.** Reals stand in for JavaScript numbers. Left out:
  - `toFixed(8)`, which is a formatter parameter;
  - the Bayer matrix, which is a threshold parameter;
  - `Math.cos`/`Math.sin` and the stick end-points, which are parameters;
  - the π estimate, its percentage error and the `"3.1415"` stop test;
  - the FPS text;
  - the `%f` averages printed by one.c and two.c;
  - the `sqrt` in `createRandomScene`, stated on squares.
- **Randomness.** `Math.random()` and `random.randint` are draw functions indexed by call number. The model does not claim any distribution.
- **gen.c filesystem and process.**
  - `opendir`/`readdir`, `fopen`, `fread`/`fwrite`, `mkdir`, `panic`/`exit`, `free` and `clock` are abstract effects. Error paths (`panic`) are not modelled.
  - A listing and a file's contents are inputs. `fread` returns full `BUF_SIZE` chunks with a shorter last one, as on a regular file, and what CopyFile writes does not depend on the chunking.
  - `print_stats` and the `printf` of `genPost` are not modelled.
  - `fputs` of the unterminated `md->b` is modelled as writing the three body bytes.
  - `fgetc` on an empty file is modelled as 0xFF stored in a `char`.
- **Integer widths in gen.c.** The counters of `stats_t` are C `int`s, and the model keeps them unbounded.
- **JavaScript coercion.**
  - section1.js stores the raw input string as Celsius or Fahrenheit. The model stores a number, so the string `"5"` and the number 5, which `!==` tells apart, are not distinguished.
  - NaN inputs and `Number(...)` of text are not modelled.
  - section2.js's `new Date(text)` parsing and its invalid dates are not modelled: a date is an object holding an integer time.
- **Boid simulations** (`public/posts/boids`, `public/posts/3d-boids`). They are floating-point vector dynamics with no exact property.
- **The Life filter's fixed geometry.** The canvas is fixed at 300×300 (`CANVAS_SIZE`). `get` assumes `canvas.width == state.w`, which the handler sets at index.js:134.
- **The originals' copy loop.** The byte-for-byte copy into `originalImageData` (index.js:141-144) is modelled as a fresh buffer that equals the loaded pixels.
- SiteGen.Generator.WriteMd: requires `PostPathFits`. A longer path overruns the 30-byte buffer, which is undefined in C. The lemmas PostPathFitsIff, SmallDateFits and ParsedPostFits say when it fits, and FiveDigitYearOverflows shows when it does not.
- SiteGen.Generator.RecursiveCopy: requires `n` to exceed the length of `dirname`. As written, the nested call passes one less, and that overruns the buffer (see Findings). The model recurses with the corrected length.
- SiteGen.Generator.CopyOne: requires `n` to exceed the length of `dirname` for the same reason.
- FilterSum.FilteredSum: requires that every partial sum fit a C `int` and that the array be shorter than 2^31 (`int i`). Signed overflow is undefined in C. SumCanOverflow shows that generated data can break this requirement, and FilteredSumWide drops it.
- PackedSum.SumIncluded: requires the same as FilteredSum, for the same reasons.
- PiEstimator.Estimator.SetLines: requires at least two lines. With one line, `spaces` is 0 and `line_gap` is a division by zero, which yields Infinity in JavaScript.
- PiEstimator.CrossingCount: the early `break` on `h < x` is modelled exactly. The count is not related to π.
- RayTracer.Scene.CreateRandomScene: states the number and shape of the spheres, not the distribution of their positions or colours.
- GameOfLife.RunIdsDistinct: holds for one image URL only. Across URLs the counter is appended with no separator, so a URL ending in a digit can collide with another (RunIdsCollideAcrossUrls). RunIdsDistinctAcross states distinctness for URLs that do not end in a digit.
- Shader.PopulateReplacesEveryOccurrence: requires that no scene string and no formatted number holds `$`. `replaceAll` expands `$$`, `$&`, `` $` `` and `$'` in its replacement (Strings.ReplaceAll models this), and the lemma does not describe the page for such a world. The worlds the program builds hold only numbers.
- Strings.ReplaceAllIsSplitJoin: requires a replacement without `$`, for the same reason. Strings.ReplaceAllReplaces requires the same.
- FilterSum.ToInt32: converting an out-of-range constant to `int` is implementation-defined in C. The model reduces modulo 2^32, as GCC and Clang do.

## Findings

| source | as written | input that shows it | evidently intended | confidence | as-written member | corrected member |
|---|---|---|---|---|---|---|
| public/micro/2022/03/14.js:40 | `getStringStartMatches` returns `l-1` when the shorter string is a prefix of the other | estimate `3.14` against pi: 4 characters agree, the routine returns 3, so the overlay shows `<b>3.1</b>4` | return `l`, the length of the common prefix | not executed | PiEstimator.OverlayDropsLastDigit | PiEstimator.BoldPartIsLongestMatch |
| gen.c:286-287 | the nested `recursiveCopy(src, m)` passes `sprintf`'s count `m`, which excludes the NUL, while the top level passes `sizeof(STATIC)`, which includes it | `./static/a/` holding a directory `b`: `./static/a/b/` needs 14 bytes, and the buffer `strlen("b") + m + 1` has 13 | pass `m + 1`, the size with the NUL, as at the top level | not executed | SiteGen.AsWrittenNestedBufferShort | SiteGen.NestedBufferFits |
| public/posts/data-oriented-design/_private/gen.py:9 | `random.randint(-(1<<31), 1<<31)` includes its upper end | a draw of 2147483648 is written into `one_data`, and the C `int` field reads -2147483648 | values in [-2^31, 2^31 - 1], the range of a C `int` | not executed | FilterSum.AsWrittenTopValueWraps | FilterSum.GeneratedValuesKept |
| public/posts/data-oriented-design/_private/one.c:18 | `sum` is a 32-bit `int` accumulating up to 2^20 values of up to 2^31 - 1 | two included nodes of value 2147483647 sum to 4294967294, a signed overflow | a 64-bit accumulator | not executed | FilterSum.SumCanOverflow | FilterSum.FilteredSumWide |
