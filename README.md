# PA Titans system generator — verified model

`app.py` is a Streamlit tool that generates star-system files (`.pas`) for
Planetary Annihilation: Titans and packages them into a zip archive for a
server mod. This project models the three parts of it that have behaviour
worth proving once the UI, the random generator and floating-point arithmetic
are set aside:

- `sanitize_filename`: the character map that turns a system name into a file
  name (module `Sanitize`, file `sanitize.dfy`).
- `generate_system`: the structure of a generated system (module `Generator`,
  file `generator.dfy`). The system has two starting planets at fixed symmetric
  positions, then the requested resource planets, appended in two loops. Every
  seed, biome, temperature, jittered metal amount and float-derived position or
  velocity comes in through per-planet draw records (`StartingDraw`,
  `ResourceDraw`) that the caller supplies.
- `create_zip_file`: the list of archive entries (module `Archive`, file
  `archive.dfy`). There is one `pa/maps/<sanitised name>_<i+1>.pas` entry per
  system, each holding the one-element array `[system]`, then `modinfo.json`
  and `README.txt`. The zip file being written is the class `ZipWriter`, whose
  `WriteStr` appends an entry.

Python's `str()` of an integer, used by every f-string that builds a name, is
modelled in `decimal.dfy`, together with its inverse. `wrappers.dfy` holds
`Option`, which stands for Python's `None`-or-value.

Some of what is proved goes beyond what the source states:
- No two planets of a generated system share a name.
- No two archive entries share a path, whatever the system names are. The
  `_<i+1>` counter tells system files apart even when their names sanitise to
  the same string.

The model follows the code as written:
- The biome list has seven entries (earth, desert, lava, moon, tropical, ice, metal).
- `generate_system` does no validation of its parameters. A negative planet count gives no resource planets but still appears, with its sign, in the name and description.
- The starting planets' biome is a uniform choice among the seven, like that of the resource planets.

## Model

| member | source | states |
|---|---|---|
| `Decimal.DecimalString` | app.py:170 | `str(n)` of a non-negative integer is a non-empty string of decimal digits with no leading zero |
| `Decimal.ParseDecimalString` | app.py:170 | reading the printed counter back gives the number: `ParseDecimal(DecimalString(n)) == n` |
| `Decimal.DecimalStringInjective` | app.py:170 | two counters print the same exactly when they are equal |
| `Decimal.IntString` | app.py:64 | `str(n)` of any integer starts with '-' exactly when n is negative, and the remaining digits read back as the absolute value with no leading zero |
| `Sanitize.KeepOrUnderscore` | app.py:25 | the generator-expression pass keeps the length; each position keeps a letter, digit, space, '_' or '-' and holds '_' for any other character |
| `Sanitize.ReplaceSpaces` | app.py:25 | `.replace(" ", "_")` keeps the length and changes exactly the spaces, into '_' |
| `Sanitize.SanitizeFilename` | app.py:23-25 | the two passes together keep the length; at each index, a letter, digit, '_' or '-' is unchanged and any other character, space included, becomes '_' |
| `Sanitize.SanitizeAlphabet` | app.py:25 | every output character is a letter, digit, '_' or '-'; no space survives |
| `Sanitize.SanitizeFixedPoint` | app.py:25 | a name is its own sanitisation exactly when all its characters are already safe |
| `Sanitize.SanitizeIdempotent` | app.py:25 | sanitising a sanitised name changes nothing |
| `Sanitize.SanitizeAlphaBeta` | app.py:25 | "Alpha/Beta 7" sanitises to "Alpha_Beta_7": the slash and the space both become '_' |
| `Generator.SkeletonRoles` | app.py:63-154 | name (given, or "Random System {n}+2" for `None`), description, version "1.0", and `2 + n` planets in order: indices 0 and 1 are "Starting Planet 1/2" with the starting flag set, mass 10000, the starting radius and 50 metal clusters; the rest are "Resource Planet k" with the flag clear, mass 5000, the additional radius and 40 clusters; every planet has respawn and start_destroyed false, spawn delays 0, thrust 0, height range 50, water 0 and biome scale 50 |
| `Generator.SkeletonPlacement` | app.py:75-154 | starting planets sit at (25000, 0) and (-25000, 0); the second gets the negated perpendicular velocity; starting planets carry the starting metal density, temperature 50 and their drawn seed and biome; resource planet k carries exactly the k-th draw's metal amount, position, velocity, seed, temperature and biome |
| `Generator.GenerateSystem` | app.py:47-156 | the two appending loops build exactly the system `Skeleton` describes |
| `Generator.ExactlyTwoStartingPlanets` | app.py:75-154 | every generated system has exactly two planets with the starting flag set |
| `Generator.StartingNameInjective` | app.py:85 | "Starting Planet {i+1}" names differ for different i |
| `Generator.ResourceNameInjective` | app.py:129 | "Resource Planet {k+1}" names differ for different k |
| `Generator.PlanetNamesDistinct` | app.py:84-129 | no two planets of a generated system share a name |
| `Generator.StartingPlanetsShareVelocity` | app.py:75-90 | with the mirrored `perp_velocity` results of the two starting positions, the sign flip gives both starting planets the same velocity vector, at mirrored positions |
| `Generator.SurfaceBounds` | app.py:98-147 | with draws inside the `randint` ranges, every planet's seed lies in [0, 100000] and its temperature in [0, 100] |
| `Archive.ZipWriter.constructor` | app.py:167 | a new archive has no entries |
| `Archive.ZipWriter.WriteStr` | app.py:173 | writing an entry appends it after the existing ones |
| `Archive.CreateZipFile` | app.py:161-204 | the archive has two entries more than there are systems: entry i is `pa/maps/<sanitised name or "system_{i+1}">_<i+1>.pas` holding `[systems[i]]`, in input order, then `modinfo.json` with the mod metadata, then `README.txt`; no two entries share a path |
| `Archive.EntryPathsDistinct` | app.py:168-201 | any entry list with the archive's layout has pairwise distinct paths |
| `Archive.SystemPathInjective` | app.py:169-173 | two system entries have the same path only if they have the same index, whatever the systems' names |
| `Archive.ArchivePathsDistinct` | app.py:168-201 | the system entry paths are pairwise distinct and differ from `modinfo.json` and `README.txt` |
| `Archive.SystemPathShape` | app.py:169-173 | every system path is `pa/maps/` followed by a file name of letters, digits, '_' and '-' followed by `.pas` |

## Left out

- Sanitize.SanitizeFilename: `str.isalnum` is modelled on ASCII letters and digits only. Python's Unicode-wide definition would keep non-ASCII letters and digits, which this model turns into '_'.
- `perp_velocity` (app.py:27-42) uses `math.hypot`, `sqrt`, float division and `int()` truncation, so it is not modelled. Its results come in as `StartingDraw.perpVelocity` and `ResourceDraw.velocity`. Its random fallback at the origin is therefore not modelled either.
- Random seeding and sampling (`random.seed`, `uniform`, `randint`, `choice`) are replaced by the supplied draw records. Reproducibility under a fixed seed then reduces to the model being a function of its inputs.
- Generator.GenerateSystem: the default arguments of `generate_system` (app.py:48-54) are not modelled; every parameter is passed explicitly, as the only call site (app.py:255-263) does. `system_name=None` is modelled as `None`.
- Generator.GenerateSystem: does not take `base_metal_value`. It only feeds the float jitter `int(round(base * (1 + dev)))` (app.py:115-116), so each resource planet's metal amount is supplied and the ±10% bound is not proved.
- Resource-planet positions come from `cos`/`sin` of a random angle and are truncated by `int()` (app.py:119-123, 131-132). They are supplied as integers.
- JSON encoding and indentation (`json.dumps`), zip compression and `io.BytesIO` are left out. An entry holds the value that would be serialised. The README text is represented by a tag, not its literal content.
- The Streamlit UI is left out: page setup, sidebar controls, session state, previews, the timestamped download name and `datetime.now()` (app.py:18, 209-336).
- The individual-download path (app.py:307-319) is UI glue and is left out. It writes the bare system object, with no array wrapper and no `_i` suffix.
