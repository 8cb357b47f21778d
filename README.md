# DIVA DIP: processor and port state model, and the bookkeeping around it

This project is a Dafny model of the core of the DIVA Document Image
Processing workbench, a Java application in which image-processing
pipelines are built from processors whose typed ports are wired together.
It covers these parts:

- **The port contract.** Module `Ports`, file `ports.dfy`.
  - A port is an input or an output.
  - It carries a data type tag.
  - It is always in exactly one of UNCONNECTED, WAITING and READY.
  - It knows the set of ports it is connected to.
  - An output port holds the payload it computed.
  - `IsConnected` is "the set of connections is not empty".
  - `GetPortState` reads the state field, which stands for the port-state property.
- **The processor contract.** Module `Processors`, file `processors.dfy`.
  - The state enum and its weights.
  - `getState(weight)`.
  - The implied state of a stage.
  - `state()` and the queries it combines. These are stated as functions over snapshots of the ports, and the Java loops are methods proved equal to those functions.
  - The lookup of port keys by data type.
  - `disconnect()` over real port objects.
  - The key/value store of a processor (`ProcessorContext`).
- **Kernels.** Module `Kernels`, file `kernels.dfy`: centred bounds, the row-major `index`, `equals`/`hashCode`.
- **FxColor.** Module `FxColors`, file `fx_colors.dfy`: the int channels, field-wise `equals`, and the 31-polynomial `hashCode` in 32-bit wrap-around arithmetic.
- **Project bookkeeping.** Module `Projects`, file `projects.dfy`.
  - The page list and page-id allocation.
  - The per-pipeline usage counters kept by a listener on every page's pipeline id.
  - Selection, lookup and deletion of pages.
  - The file name and the export directory.
- **The Sobel filter processor.** Module `SobelFilters`, file `sobel_filter.dfy`.
  - Band selection.
  - How the two gradients are stored and published.
  - The roll-back when a run is interrupted.
- **The matrix editor processor.** Module `MatrixEditors`, file `matrix_editor.dfy`.
  - The dimension parameters.
  - The resize listener.
  - Publishing only on connected outputs.
  - The multiplier.
- **Background tasks.** Module `BackgroundTasks`, file `background_task.dfy`: the result goes from RUNNING to one terminal value, and the completion hooks run in a fixed order, recorded as a trace of events.
- **NullOp.** Module `NullOps`, file `null_op.dfy`.
  - Compatible destinations.
  - The copy of every (column, row, band) sample.
  - `getPoint2D`.

Shared files:

- `wrappers.dfy`: `Option` and `Outcome`.
- `matrices.dfy`: the matrix payload.
- `arithmetic.dfy`: integer facts used by the kernel and colour proofs.

Modelling conventions:

- Java `int` arithmetic is written out where it matters.
  - `Kernels.JavaDiv` is Java's truncating division.
  - `FxColors.Wrap` is 32-bit two's complement reduction.
- The usage counters are proved to tally the pages' pipeline ids under every operation that changes either. The invariant is `Projects.Project.Valid`.
- A JavaFX change listener fires once per registration, and only when the value actually changes. `addPage` registers the usage listener once each time it is called.

## Model

| member | source | states |
|---|---|---|
| Ports.StateAfterConnect | api/src/main/java/ch/unifr/diva/dip/api/components/Port.java:17-38 | a connected port is never UNCONNECTED; a newly connected input is READY exactly when its output is READY; an output that already waits or is ready keeps its state |
| Ports.Port.constructor | api/src/main/java/ch/unifr/diva/dip/api/components/Port.java:19-24 | a new port has no connections, no payload and is UNCONNECTED |
| Ports.Port.ConnectTo | api/src/main/java/ch/unifr/diva/dip/api/components/Port.java:94-108 | fails with a type mismatch exactly when the data types differ (lines 47-53), and fails leaving both ports unchanged when an input port already has its one connection; on success both sides gain the connection and take their new states; validity (same type, opposite direction, at most one connection per input) is preserved |
| Ports.Port.DisconnectFrom | api/src/main/java/ch/unifr/diva/dip/api/components/Port.java:110-115 | removes the connection on both sides, and a side left without connections is UNCONNECTED; ports that were not connected are unchanged |
| Ports.Port.Disconnect | api/src/main/java/ch/unifr/diva/dip/api/components/Port.java:117-120 | afterwards the port has no connections and is UNCONNECTED; every former peer loses exactly its connection to this port |
| Ports.Port.SetOutput | api/src/main/java/ch/unifr/diva/dip/api/components/Port.java:26-31 | a computed output holds its payload, is READY and makes every connected input READY |
| Ports.Port.ResetOutput | api/src/main/java/ch/unifr/diva/dip/api/components/Port.java:25-31 | a cleared output has no payload and is WAITING (UNCONNECTED without connections); its connected inputs are WAITING |
| Processors.AllStatesListed | api/src/main/java/ch/unifr/diva/dip/api/services/Processor.java:77-112 | every state occurs in the declaration-order list used by `getState` |
| Processors.GetState | api/src/main/java/ch/unifr/diva/dip/api/services/Processor.java:138-145 | since the weights are distinct, a state's own weight gives back that state; any other weight gives UNAVAILABLE |
| Processors.StageState | api/src/main/java/ch/unifr/diva/dip/api/services/Processor.java:118-124 | the implied state of a stage is one of its processors' states with the greatest weight, and none for an empty stage |
| Processors.StageWithErrorIsError | api/src/main/java/ch/unifr/diva/dip/api/services/Processor.java:118-124 | a stage with a processor in ERROR is in ERROR |
| Processors.DefaultView | api/src/main/java/ch/unifr/diva/dip/api/services/Processor.java:513-515 | by default the output parameters are ready, and neither `isError` (lines 399-401) nor `isWaitingOnInputParams` (lines 459-461) holds |
| Processors.StateOfCharacterized | api/src/main/java/ch/unifr/diva/dip/api/services/Processor.java:522-540 | `state()` is never UNAVAILABLE, and for each state, in both directions, exactly when that state is the result: ERROR, then UNCONNECTED, then WAITING, then READY, else PROCESSING |
| Processors.DefaultProcessorStates | api/src/main/java/ch/unifr/diva/dip/api/services/Processor.java:472-540 | with the default hooks a processor is never in ERROR, and one without outputs is READY exactly when its required inputs are connected, UNCONNECTED otherwise |
| Processors.NoOutputsServed | api/src/main/java/ch/unifr/diva/dip/api/services/Processor.java:472-503 | a processor without outputs is ready exactly when its output parameters are ready |
| Processors.CountConnectedBounds | api/src/main/java/ch/unifr/diva/dip/api/services/Processor.java:479-500 | the `numConnected` counter is at most the number of ports, and 0 exactly when no port is connected |
| Processors.CountReadyBounds | api/src/main/java/ch/unifr/diva/dip/api/services/Processor.java:479-500 | the `numReady` counter equals the number of ports exactly when every port is READY |
| Processors.IsConnected | api/src/main/java/ch/unifr/diva/dip/api/services/Processor.java:409-416 | the loop answers true exactly when every required input is connected; optional inputs do not matter |
| Processors.ServedByCounts | api/src/main/java/ch/unifr/diva/dip/api/services/Processor.java:472-503 | once every connected output is READY, the processor is done exactly when some output is connected or every output is READY, which is what the two counters decide |
| Processors.PendingOutput | api/src/main/java/ch/unifr/diva/dip/api/services/Processor.java:484-487 | a connected output that is not READY keeps the processor from being done |
| Processors.IsReady | api/src/main/java/ch/unifr/diva/dip/api/services/Processor.java:472-503 | the loop with its two counters answers true exactly when the output parameters are ready and every connected output is READY, or every output when none is connected |
| Processors.IsWaiting | api/src/main/java/ch/unifr/diva/dip/api/services/Processor.java:429-449 | false whenever the processor is ready; otherwise true exactly when input parameters are pending or a connected input's upstream output is not READY |
| Processors.ComputeState | api/src/main/java/ch/unifr/diva/dip/api/services/Processor.java:522-540 | the method equals the characterised `StateOf` and is never UNAVAILABLE |
| Processors.KeysOfType | api/src/main/java/ch/unifr/diva/dip/api/services/Processor.java:284-293 | a key is listed exactly when some port with that key has the given data type |
| Processors.PortsOfType | api/src/main/java/ch/unifr/diva/dip/api/services/Processor.java:284-293 | the loop of `inputs(String)`, and of `outputs(String)` at lines 363-372, collects exactly `KeysOfType`, in port order |
| Processors.DisconnectInWorld | api/src/main/java/ch/unifr/diva/dip/api/services/Processor.java:377-391 | one port is left without connections; connections elsewhere only shrink and stay symmetric, payloads never change, and a port that lost its last connection is UNCONNECTED |
| Processors.DisconnectNext | api/src/main/java/ch/unifr/diva/dip/api/services/Processor.java:377-391 | one turn of the loop: the port is disconnected and the ports before it stay disconnected, with the same guarantees for all other ports |
| Processors.DisconnectAll | api/src/main/java/ch/unifr/diva/dip/api/services/Processor.java:377-391 | every port of the list is left without connections, with the same guarantees for all other ports |
| Processors.Disconnect | api/src/main/java/ch/unifr/diva/dip/api/services/Processor.java:377-391 | after `disconnect()` no input and no output of the processor is connected; no payload changes and the pipeline's connections stay symmetric |
| Processors.DisconnectedProcessor | api/src/main/java/ch/unifr/diva/dip/api/services/Processor.java:409-416 | a processor without connected inputs is connected exactly when it has no required input, and is otherwise UNCONNECTED unless in error |
| Processors.ProcessorContext.Read | bundles/openimaj-tools/src/main/java/ch/unifr/diva/dip/openimaj/tools/SobelFilter.java:224-225 | a stored matrix reads back as itself, and a missing key reads as nothing |
| Processors.ProcessorContext.Write | bundles/openimaj-tools/src/main/java/ch/unifr/diva/dip/openimaj/tools/SobelFilter.java:196-197 | writing a key replaces that entry only |
| Processors.ProcessorContext.Delete | bundles/openimaj-tools/src/main/java/ch/unifr/diva/dip/openimaj/tools/SobelFilter.java:236-237 | deleting a key removes that entry only |
| Kernels.JavaDivTruncates | api/src/main/java/ch/unifr/diva/dip/api/datastructures/Kernel.java:71-76 | Java's `/` truncates toward zero: the magnitude is the quotient of the magnitudes, and the sign is the product of the signs |
| Kernels.JavaDivByMinusTwo | api/src/main/java/ch/unifr/diva/dip/api/datastructures/Kernel.java:72-73 | `n / -2` in Java is `-(n / 2)` for a non-negative dimension |
| Kernels.NewKernel | api/src/main/java/ch/unifr/diva/dip/api/datastructures/Kernel.java:69-77 | the bounds start at `-(columns / 2)`, `-(rows / 2)` and span the matrix |
| Kernels.ExtentOfNewKernel | api/src/main/java/ch/unifr/diva/dip/api/datastructures/Kernel.java:113-124 | `width()` and `height()` are the columns and rows of the matrix |
| Kernels.IndexOfTopLeft | api/src/main/java/ch/unifr/diva/dip/api/datastructures/Kernel.java:95-97 | the top-left corner of the bounds has index 0 |
| Kernels.IndexInRange | api/src/main/java/ch/unifr/diva/dip/api/datastructures/Kernel.java:95-97 | every coordinate within the bounds has an index in [0, width * height) |
| Kernels.CoordinatesOfIndex | api/src/main/java/ch/unifr/diva/dip/api/datastructures/Kernel.java:95-97 | the row-major decoding of an index gives back the coordinates |
| Kernels.IndexOfCoordinates | api/src/main/java/ch/unifr/diva/dip/api/datastructures/Kernel.java:95-97 | every index in [0, width * height) is the index of coordinates within the bounds, so `index` is onto |
| Kernels.IndexInjective | api/src/main/java/ch/unifr/diva/dip/api/datastructures/Kernel.java:95-97 | distinct coordinates within the bounds have distinct indices |
| Kernels.CentreOfOddKernel | api/src/main/java/ch/unifr/diva/dip/api/datastructures/Kernel.java:12-17 | for odd sizes the key element (0, 0) lies within the bounds, with as many coefficients on either side, and has index `(rows / 2) * columns + columns / 2` |
| Kernels.EqualKernelsEqualHashes | api/src/main/java/ch/unifr/diva/dip/api/datastructures/Kernel.java:144-160 | kernels that are `equals` have equal hash codes |
| Kernels.KernelEqualsIsIdentity | api/src/main/java/ch/unifr/diva/dip/api/datastructures/Kernel.java:149-160 | `equals` compares only the matrices, yet for kernels built from matrices it is exactly value equality |
| FxColors.Rgb | api/src/main/java/ch/unifr/diva/dip/api/datastructures/FxColor.java:67-69 | the three-argument constructor keeps the channels and yields opacity 255 |
| FxColors.Rgba | api/src/main/java/ch/unifr/diva/dip/api/datastructures/FxColor.java:79-84 | the four-argument constructor stores the values unchanged, without clamping |
| FxColors.HashCodeClosedForm | api/src/main/java/ch/unifr/diva/dip/api/datastructures/FxColor.java:99-107 | the hash, wrapped after every step, is `((((17*31+r)*31+g)*31+b)*31+o)` wrapped once into 32 bits |
| FxColors.EqualsIsValueEquality | api/src/main/java/ch/unifr/diva/dip/api/datastructures/FxColor.java:109-131 | `equals` holds exactly when red, green, blue and opacity are all equal |
| FxColors.EqualsIsEquivalence | api/src/main/java/ch/unifr/diva/dip/api/datastructures/FxColor.java:109-131 | `equals` is reflexive, symmetric and transitive |
| FxColors.EqualColoursEqualHashes | api/src/main/java/ch/unifr/diva/dip/api/datastructures/FxColor.java:99-131 | equal colours have equal hash codes |
| Projects.Parent | app/src/main/java/ch/unifr/diva/dip/core/model/Project.java:361-367 | `getParent()` drops the last name element; there is none exactly for an empty path or a single relative name |
| Projects.FileName | app/src/main/java/ch/unifr/diva/dip/core/model/Project.java:346-352 | `getFileName()` is the last name element, present exactly when there is one |
| Projects.Resolve | app/src/main/java/ch/unifr/diva/dip/core/model/Project.java:361-367 | the resolved path has the given file name and, unless the base is empty and relative, the base as its parent |
| Projects.IndexOf | app/src/main/java/ch/unifr/diva/dip/core/model/Project.java:707-722 | the position of the first occurrence of a page, -1 exactly when the page is not in the list |
| Projects.RemoveFirst | app/src/main/java/ch/unifr/diva/dip/core/model/Project.java:722 | `pages.remove(page)` removes one element when the page is present, and nothing otherwise |
| Projects.RemoveFirstRemovesFirst | app/src/main/java/ch/unifr/diva/dip/core/model/Project.java:722 | `pages.remove(page)` on a present page takes out exactly one occurrence of it, the first, and keeps the pages before and after it in order |
| Projects.RemoveFirstShrinks | app/src/main/java/ch/unifr/diva/dip/core/model/Project.java:722 | `pages.remove(page)` adds no page |
| Projects.RemoveAllShrinks | app/src/main/java/ch/unifr/diva/dip/core/model/Project.java:707-727 | after removing the selection in turn, no page was added, and every page that went was selected |
| Projects.AfterDeletionRemovesSelection | app/src/main/java/ch/unifr/diva/dip/core/model/Project.java:707-727 | the loop, which checks each selected page against the pages still present and compares its id with the current selection, removes the selection page by page, and ends with selection -1 exactly when a selected page of the project had the selected id |
| Projects.PagesOf | app/src/main/java/ch/unifr/diva/dip/core/model/Project.java:552-560 | exactly the pages with the pipeline are listed |
| Projects.PagesOfCount | app/src/main/java/ch/unifr/diva/dip/core/model/Project.java:552-560 | there are as many pages with a pipeline as occurrences of its id among the pages' pipeline ids |
| Projects.MaxPageIdBounds | app/src/main/java/ch/unifr/diva/dip/core/model/Project.java:163-169 | the largest loaded id bounds every loaded page id and is one of them unless it is 0 |
| Projects.Moved | app/src/main/java/ch/unifr/diva/dip/core/model/Project.java:611-616 | the listener's effect moves counts from the old pipeline to the new one and leaves every other counter alone |
| Projects.TallyIsCount | app/src/main/java/ch/unifr/diva/dip/core/model/Project.java:646-651 | while the counters tally the pages, reading a counter gives the number of pages of that pipeline, and 0 for a pipeline without counter |
| Projects.TallyAppend | app/src/main/java/ch/unifr/diva/dip/core/model/Project.java:598-607 | adding a page and incrementing its pipeline's counter keeps the tally |
| Projects.TallyRemoveAt | app/src/main/java/ch/unifr/diva/dip/core/model/Project.java:719-722 | removing a page and decrementing its pipeline's counter keeps the tally |
| Projects.TallyRetag | app/src/main/java/ch/unifr/diva/dip/core/model/Project.java:611-616 | moving a page to another pipeline, with -1 on the old counter and +1 on the new per registration, keeps the tally |
| Projects.Project.constructor | app/src/main/java/ch/unifr/diva/dip/core/model/Project.java:147-180 | a fresh page for each stored page, in order, with its id and pipeline; `maxPageId` is the largest stored id; the counters tally the pages; the stored selection is selected only if it is such a page; not modified, and from then on the selection is observed (lines 175-176) |
| Projects.Project.LoadPages | app/src/main/java/ch/unifr/diva/dip/core/model/Project.java:163-169 | the page loop of the constructor: one fresh page per stored page, `maxPageId` is the maximum stored id, the tally holds |
| Projects.Project.LoadPage | app/src/main/java/ch/unifr/diva/dip/core/model/Project.java:163-169 | one turn of the loop: a fresh page is appended and `maxPageId` is raised to its id when that is larger |
| Projects.Project.GetPipelineUsage | app/src/main/java/ch/unifr/diva/dip/core/model/Project.java:646-651 | the usage of a pipeline is the number of pages assigned to it, 0 for one never seen |
| Projects.Project.UsageCountsPages | app/src/main/java/ch/unifr/diva/dip/core/model/Project.java:646-651 | `getPipelineUsage(id)` is the number of pages `getPages(id)` returns |
| Projects.Project.AddToPipelineUsage | app/src/main/java/ch/unifr/diva/dip/core/model/Project.java:619-622 | the pipeline's counter, created at 0 if needed, grows by the value; nothing else changes |
| Projects.Project.NewPageId | app/src/main/java/ch/unifr/diva/dip/core/model/Project.java:737-740 | returns `maxPageId + 1` and stores it; when `maxPageId` bounds every page id, the new id is larger than all of them |
| Projects.Project.AddPage | app/src/main/java/ch/unifr/diva/dip/core/model/Project.java:598-607 | the page is appended, its pipeline's counter grows by exactly 1, the tally holds, and the project is marked modified only if asked |
| Projects.Project.SetPagePipeline | app/src/main/java/ch/unifr/diva/dip/core/model/Project.java:611-616 | changing a page's pipeline moves one count per listener registration from the old counter to the new one, so the tally holds; setting the same pipeline changes nothing |
| Projects.Project.MoveRegistrations | app/src/main/java/ch/unifr/diva/dip/core/model/Project.java:611-616 | each registration of the listener moves one count, and the counters then tally the retagged pipeline ids |
| Projects.Project.SelectPage | app/src/main/java/ch/unifr/diva/dip/core/model/Project.java:477-498 | returns false and changes nothing exactly when the id is negative or already selected; otherwise returns true and selects the id if such a page exists, or -1; once the selection is observed, a change of it marks the project modified |
| Projects.Project.SetSelectedPageId | app/src/main/java/ch/unifr/diva/dip/core/model/Project.java:170-176 | `selectedPageIdProperty.set(id)` sets the selection and, once the constructor has made it an observed property, marks the project modified when the value changes |
| Projects.Project.GetPage | app/src/main/java/ch/unifr/diva/dip/core/model/Project.java:537-544 | the first page with the id, or none exactly when no page has it |
| Projects.Project.GetPages | app/src/main/java/ch/unifr/diva/dip/core/model/Project.java:552-560 | the loop returns exactly the pages with that pipeline, in list order |
| Projects.Project.GetFirstPageId | app/src/main/java/ch/unifr/diva/dip/core/model/Project.java:395-400 | -1 for a project without pages, otherwise the first page's id |
| Projects.Project.GetFilename | app/src/main/java/ch/unifr/diva/dip/core/model/Project.java:346-352 | the file name of the project file, "" when there is none |
| Projects.Project.GetExportDirectory | app/src/main/java/ch/unifr/diva/dip/core/model/Project.java:361-367 | none exactly when the project file has no parent; otherwise a sibling of the project file named after it plus "-out" (line 58) |
| Projects.Project.DeletePages | app/src/main/java/ch/unifr/diva/dip/core/model/Project.java:689-730 | with confirmation, an answer other than YES changes nothing; otherwise the pages and the selection are those the loop leaves (see `AfterDeletionRemovesSelection`), the tally holds, and the project is modified |
| Projects.Project.DeleteAll | app/src/main/java/ch/unifr/diva/dip/core/model/Project.java:707-727 | the loop over the selection ends with the pages and selection of `AfterDeletion`, keeping the tally; the project is marked modified when the observed selection was cleared |
| Projects.Project.DeleteStep | app/src/main/java/ch/unifr/diva/dip/core/model/Project.java:707-727 | one turn of the loop: a page still in the project is removed, and the selection is cleared if it is that page (lines 713-714); a page no longer present is skipped; clearing the observed selection marks the project modified |
| Projects.Project.SetModified | app/src/main/java/ch/unifr/diva/dip/core/model/Project.java:729 | the project is marked modified and nothing else changes |
| Projects.Project.RemovePage | app/src/main/java/ch/unifr/diva/dip/core/model/Project.java:719-722 | the first occurrence of the page goes and its pipeline's counter drops by one, keeping the tally |
| SobelFilters.GetBandAsWrittenMissesFirstBand | bundles/openimaj-tools/src/main/java/ch/unifr/diva/dip/openimaj/tools/SobelFilter.java:205-221 | as written, `getBand` returns no band (-1) exactly when a band beyond the last one is selected on a non-gray input |
| SobelFilters.GetBandAsWrittenExample | bundles/openimaj-tools/src/main/java/ch/unifr/diva/dip/openimaj/tools/SobelFilter.java:210-220 | band 2 of a one-band matrix gives -1 as written |
| SobelFilters.GetBand | bundles/openimaj-tools/src/main/java/ch/unifr/diva/dip/openimaj/tools/SobelFilter.java:205-221 | 0 for the gray input, and for a slider value of at least 1 always a band of the image |
| SobelFilters.GetBandAgreesInRange | bundles/openimaj-tools/src/main/java/ch/unifr/diva/dip/openimaj/tools/SobelFilter.java:205-221 | the corrected `getBand` agrees with the written one exactly outside the fallback case |
| SobelFilters.Publish | bundles/openimaj-tools/src/main/java/ch/unifr/diva/dip/openimaj/tools/SobelFilter.java:229-232 | setting an output with a matrix makes it and its peers READY; without one it is reset and its peers wait |
| SobelFilters.SobelFilter.constructor | bundles/openimaj-tools/src/main/java/ch/unifr/diva/dip/openimaj/tools/SobelFilter.java:51-104 | the band slider starts at 1 within 1..4, and the two float-image outputs are distinct and unconnected |
| SobelFilters.SobelFilter.SetOutputs | bundles/openimaj-tools/src/main/java/ch/unifr/diva/dip/openimaj/tools/SobelFilter.java:229-232 | both outputs publish their gradient; connections and the band do not change |
| SobelFilters.SobelFilter.RestoreOutputs | bundles/openimaj-tools/src/main/java/ch/unifr/diva/dip/openimaj/tools/SobelFilter.java:223-227 | both outputs publish what the store holds under "dx.bmat" and "dy.bmat" |
| SobelFilters.SobelFilter.Reset | bundles/openimaj-tools/src/main/java/ch/unifr/diva/dip/openimaj/tools/SobelFilter.java:234-239 | both stored gradients are deleted, nothing else in the store changes, and both outputs and their peers wait |
| SobelFilters.SobelFilter.Init | bundles/openimaj-tools/src/main/java/ch/unifr/diva/dip/openimaj/tools/SobelFilter.java:134-143 | band selection is disabled exactly when the gray input is connected; outputs are restored from the store only with a context |
| SobelFilters.SobelFilter.Process | bundles/openimaj-tools/src/main/java/ch/unifr/diva/dip/openimaj/tools/SobelFilter.java:150-203 | without an enabled input nothing changes; an interruption at any checkpoint, even after the outputs were set, leaves both gradients deleted and both outputs reset; otherwise the gradients of `GetBand`'s band are stored and published and all peers are READY |
| MatrixEditors.NewStringMatrix | awt-tools/src/main/java/ch/unifr/diva/dip/awt/tools/MatrixEditor.java:100-103 | a new string matrix has the requested dimensions and one cell per entry |
| MatrixEditors.ResizedHasDimensions | awt-tools/src/main/java/ch/unifr/diva/dip/awt/tools/MatrixEditor.java:97-104 | after the dimension listener the matrix has exactly rows x columns |
| MatrixEditors.ResizedKeepsMatching | awt-tools/src/main/java/ch/unifr/diva/dip/awt/tools/MatrixEditor.java:101-103 | the listener keeps the matrix exactly when its dimensions already match |
| MatrixEditors.ResizedIdempotent | awt-tools/src/main/java/ch/unifr/diva/dip/awt/tools/MatrixEditor.java:97-104 | running the listener twice is the same as once |
| MatrixEditors.Evaluate | awt-tools/src/main/java/ch/unifr/diva/dip/awt/tools/MatrixEditor.java:140-148 | the float or double matrix has the dimensions of the string matrix and each cell's value |
| MatrixEditors.Scale | awt-tools/src/main/java/ch/unifr/diva/dip/awt/tools/MatrixEditor.java:140-148 | `multiply(k)` keeps precision and shape and multiplies every cell by k |
| MatrixEditors.ScaleByOne | awt-tools/src/main/java/ch/unifr/diva/dip/awt/tools/MatrixEditor.java:135-137 | multiplying by 1 changes nothing |
| MatrixEditors.OutputMatrixIsScaled | awt-tools/src/main/java/ch/unifr/diva/dip/awt/tools/MatrixEditor.java:135-148 | applying the multiplier only when it is not 1 always publishes the evaluated matrix times the multiplier |
| MatrixEditors.MatrixEditor.constructor | awt-tools/src/main/java/ch/unifr/diva/dip/awt/tools/MatrixEditor.java:45-111 | rows and columns start at 3 within 1..64, the matrix is an empty 3 x 3 one, the multiplier is 1, no listener is attached, and the two outputs are unconnected |
| MatrixEditors.MatrixEditor.SetOutputs | awt-tools/src/main/java/ch/unifr/diva/dip/awt/tools/MatrixEditor.java:134-151 | every connected output, and every port connected to it, serves the current matrix at the output's precision; an unconnected output is left untouched |
| MatrixEditors.MatrixEditor.OnMatrixChanged | awt-tools/src/main/java/ch/unifr/diva/dip/awt/tools/MatrixEditor.java:130-132 | once attached, the matrix listener republishes the outputs; before, nothing happens |
| MatrixEditors.MatrixEditor.OnDimensionsChanged | awt-tools/src/main/java/ch/unifr/diva/dip/awt/tools/MatrixEditor.java:97-104 | the matrix gets the parameter dimensions, is replaced only when they differ, and the replacement reaches the outputs through the matrix listener |
| MatrixEditors.MatrixEditor.SetRows | awt-tools/src/main/java/ch/unifr/diva/dip/awt/tools/MatrixEditor.java:119-121 | a new row count within 1..64 resizes the matrix only when the dimension listener is attached |
| MatrixEditors.MatrixEditor.SetColumns | awt-tools/src/main/java/ch/unifr/diva/dip/awt/tools/MatrixEditor.java:119-121 | a new column count within 1..64 resizes the matrix only when the dimension listener is attached |
| MatrixEditors.MatrixEditor.SetMatrix | awt-tools/src/main/java/ch/unifr/diva/dip/awt/tools/MatrixEditor.java:126-132 | a new matrix reaches the connected outputs exactly when the matrix listener is attached |
| MatrixEditors.MatrixEditor.Init | awt-tools/src/main/java/ch/unifr/diva/dip/awt/tools/MatrixEditor.java:118-128 | the dimension listener is always attached; only with a context are the outputs set and the matrix listener attached |
| BackgroundTasks.CompletionSetsOneResult | app/src/main/java/ch/unifr/diva/dip/utils/BackgroundTask.java:94-103 | every completion sets the result exactly once, to the outcome, after `finished` of that outcome |
| BackgroundTasks.CompletionOrder | app/src/main/java/ch/unifr/diva/dip/utils/BackgroundTask.java:136-165 | `finished` comes before `cleanUp`, and `cleanUp` before the result and the error handling; `cleanUp` runs exactly when the task did not succeed; the error is logged exactly on failure and shown exactly on failure with a UI strategy |
| BackgroundTasks.BackgroundTask.constructor | app/src/main/java/ch/unifr/diva/dip/utils/BackgroundTask.java:87-92 | a new task is RUNNING with a fresh thread that has not started |
| BackgroundTasks.BackgroundTask.Start | app/src/main/java/ch/unifr/diva/dip/utils/BackgroundTask.java:119-125 | a worker event is posted exactly when there is an event bus, before the thread starts; the task's own thread is returned |
| BackgroundTasks.BackgroundTask.OnSucceeded | app/src/main/java/ch/unifr/diva/dip/utils/BackgroundTask.java:167-174 | `finished(SUCCEEDED)`, then the result SUCCEEDED, and no `cleanUp` |
| BackgroundTasks.BackgroundTask.OnCancelled | app/src/main/java/ch/unifr/diva/dip/utils/BackgroundTask.java:176-184 | `finished(CANCELLED)`, `cleanUp`, then the result CANCELLED |
| BackgroundTasks.BackgroundTask.OnFailed | app/src/main/java/ch/unifr/diva/dip/utils/BackgroundTask.java:186-209 | `finished(FAILED)`, `cleanUp`, the result FAILED, then the throwable is logged and shown only with a UI strategy |
| BackgroundTasks.BackgroundTask.Complete | app/src/main/java/ch/unifr/diva/dip/utils/BackgroundTask.java:94-103 | a running task ends in exactly the given terminal result, with one result set and its hooks in order |
| NullOps.CreateCompatibleDestImage | api/src/main/java/ch/unifr/diva/dip/api/imaging/ops/NullOp.java:25-51 | a zeroed image of the source's size; a buffered matrix keeps bands, sample type and interleave, a common type keeps its type, and a custom image takes the given colour model |
| NullOps.CreateCompatibleDestImageOfBounds | api/src/main/java/ch/unifr/diva/dip/api/imaging/ops/NullOp.java:61-68 | a zeroed custom image of the bounds' size for the given colour model |
| NullOps.CreateCompatibleDestMatrix | api/src/main/java/ch/unifr/diva/dip/api/imaging/ops/NullOp.java:79-87 | width and height from the bounds; bands, sample type and interleave from the source matrix |
| NullOps.CopyPixel | api/src/main/java/ch/unifr/diva/dip/api/imaging/ops/NullOp.java:98-101 | every band of one location is copied, and nothing else in the destination changes |
| NullOps.CopyRow | api/src/main/java/ch/unifr/diva/dip/api/imaging/ops/NullOp.java:98-101 | every sample of one row is copied, and nothing else in the destination changes |
| NullOps.CopyRaster | api/src/main/java/ch/unifr/diva/dip/api/imaging/ops/NullOp.java:98-101 | the raster scan copies every (column, row, band) sample of the source; the rest of the destination is left as it was |
| NullOps.Filter | api/src/main/java/ch/unifr/diva/dip/api/imaging/ops/NullOp.java:89-104 | every sample of the source is copied into the destination, which is returned; without a destination a new one of the source's size is created first |
| NullOps.GetPoint2D | api/src/main/java/ch/unifr/diva/dip/api/imaging/ops/NullOp.java:111-120 | the result has the source's coordinates; it is the given destination, updated, or else a new point |

## Left out

- Events, notifications and UI. Not modelled:
  - event-bus notifications;
  - `ModifiedProperty` bookkeeping other than the project's modified flag and its observation of the selection;
  - logging, other than as an event of a background task;
  - dialogs other than the answer passed to `DeletePages`;
  - glyphs, documentation and parameter views.
  These are I/O or UI.
- Project persistence. Zip file systems, saving, `newProject`, and `processPages`/`resetPages` are not modelled. They are I/O and background work.
- Threads. `FxUtils` thread marshalling and real threads are not modelled; each hook runs its steps in order on one thread.
- Integer widths.
  - `maxPageId` and the kernel `index` are unbounded integers; 32-bit overflow of either is not modelled. It would need more than 2^31 pages or cells.
  - Only `FxColor.hashCode` is computed in 32-bit arithmetic.
- Floating point.
  - Matrix cells are real numbers. Float and double rounding, including the `(float)` cast of the multiplier, is not modelled.
  - `FxColor`'s double conversions are not modelled.
  - The Sobel mathematics and the sigma validation are not modelled.
- Classes that are not part of this model:
  - `InputPort`, `OutputPort` and `XorInputPorts`. The port state rules follow `Port`'s documentation.
  - `ProcessableBase`, `BufferedMatrix`, `StringMatrix`, `ExpMatrixParameter`, `ProcessorContext` and `RasterScanner`.
- Kernels.HashCode: the matrix hash is a parameter, since the matrix classes are not part of this model.
- Processors.StateOf: the processor is given as a snapshot of its ports. Listeners that recompute the state on changes are not modelled.
- Processors.Disconnect: requires the ports to form a closed world in which connections are symmetric. This is how the pipeline wires them.
- Ports.Port.ConnectTo: requires ports of opposite directions, because pipelines only wire outputs to inputs. Disabled ports are not modelled.
- Ports.Port.ConnectTo: an input port that already has its one connection refuses a second one (`CapacityExceeded`). `Port` only says an input has at most one connection; `InputPort` is not part of this model, and a real input might instead replace its old connection.
- Projects.Project.SelectPage: `ModifiedProperty` is not part of this model. The model assumes that a change of an observed property sets the modified flag. The project name and the pipeline manager, also observed, are not modelled.
- Projects.Project.SetPagePipeline: leaves the modified flag alone. `addPage` hands each page to `ModifiedProperty` as a managed property, but what a `ProjectPage` observes is not part of this model, so whether a new pipeline id marks the project modified is not captured.
- SobelFilters.SobelFilter.Process: simplified in these ways.
  - The enabled input is given as a parameter.
  - The band count of the input image is given as a parameter.
  - The gradients are a function of the band.
  - An interruption is given as the checkpoint at which it happens.
  - The gray input always analyses band 0, which is what `GetBand` returns for it.
  - It uses the corrected `GetBand` (see Findings).
- SobelFilters.SobelFilter.RestoreOutputs: a missing store entry resets its output, standing for `setOutput(null)`.
- SobelFilters.SobelFilter.Init: the listener on the gray port's state is reduced to the connection state passed in.
- MatrixEditors.MatrixEditor.Init: attaching a listener is a flag. A second `init` would register a second listener, which is not modelled.
- MatrixEditors.MatrixEditor.SetMatrix: the new matrix always notifies the listener, as a freshly built matrix does. Setting the identical object again would not.
- Not modelled in `MatrixEditor`:
  - the multiplier parameter's own setter;
  - the "fill" button;
  - parsing of cell expressions, which is the `value` parameter.
- NullOps.Filter: simplified in these ways.
  - It requires a destination whose raster has room for the source. Java throws part-way through otherwise.
  - Samples are integers. Truncation into a narrower sample type is not modelled.
- NullOps.CreateCompatibleDestImageOfBounds: requires non-negative bounds, as Java's raster constructor does.
- NullOps.CreateCompatibleDestMatrix: requires non-negative bounds, as Java's raster constructor does.
- NullOp's `getBounds2D` and `getRenderingHints` are not modelled. They only return the raster's bounds and null.
- BackgroundTasks.BackgroundTask.Start: a second start, which `java.lang.Thread` refuses with an exception, is not modelled.
- BackgroundTasks.BackgroundTask.Complete: the JavaFX task machinery, which calls one hook when the task ends, is reduced to this method. The throwable of a failure is a parameter.

## Findings

| source | as written | input that shows it | evidently intended | confidence | as-written member | corrected member |
|---|---|---|---|---|---|---|
| bundles/openimaj-tools/src/main/java/ch/unifr/diva/dip/openimaj/tools/SobelFilter.java:210-220 | when the selected band exceeds the image's band count, `b` is set to 0 and `b - 1` = -1 is returned | a float matrix with one band and the band slider at 2: the result is -1, not a band | the logged warning says "Selecting first band", so the index 0 | not executed | SobelFilters.GetBandAsWrittenExample | SobelFilters.GetBand |
