# Moonlight annotation core, modelled in Dafny

Moonlight is a desktop image annotation tool. A user defines parent labels
(classes, each a name and an id) and draws child labels (rectangles, rotated
boxes, polygons, polygon masks, points, lines, circles) on images; detection
and segmentation models (YOLO-style detectors, a prompt-driven open-vocabulary
detector, SAM) propose labels automatically; finished work is exported as a
train/val dataset.

This project models the annotation core of that program and proves what it
promises:

- the label data model: child-label construction, move, scale, rotation-angle
  normalisation, area and hit testing, and the parent-label list with its
  uniqueness of (name, id), single selection, per-image child lists, rename and
  point queries (`labels.dfy`, `label_list.dfy`);
- the geometry algorithms: axis-aligned bounding rectangle, polygon area by the
  shoelace rule, the gift-wrapping convex hull and the degenerate cases of the
  minimum bounding rectangle (`bounding_rect.dfy`, `polygon_area.dfy`,
  `convex_hull.dfy`);
- the duplicate filter for automatic labels by intersection over union
  (`dup_filter.dfy`);
- the detector wrappers: class filtering, centre-in-prompt filtering, crop
  clipping and shift-back, prompt weights and semantic-prompt alignment, mask
  paste bounds, and the batch drivers (`yolov.dfy`, `yoloe.dfy`,
  `batch_inference.dfy`, `batch_rect_pen.dfy`);
- the SAM prompt managers and the automatic pens that turn model output into
  labels (`obbsam.dfy`, `samrect.dfy`, `auto_rect_pen.dfy`, `auto_pen.dfy`);
- the drawing gestures, dragging, the visible-region crop cache and the image
  enlargement to a target resolution (`draw_manage.dfy`, `move_it.dfy`,
  `draw_jk.dfy`, `image_resize.dfy`);
- the model registry with its weight-path safety rule and fallback search
  (`model_loader.dfy`);
- the dataset export: labeled-image collection, train/val split and progress,
  mask gray levels and point clamps, and the label statistics
  (`dataset_export.dfy`).

Python semantics that matter are written out in `pynum.dfy`: `int()` truncates
toward zero, `round()` rounds half to even, float `%` by a positive divisor is
never negative. Coordinates are mathematical reals; floating-point rounding is
not modelled. Objects whose fields the program updates in place (the parent
label list, the SAM managers, the pens, the drawing manager, the drag session,
the model registry, the batch worker) are classes; labels and results are
values. Qt widgets, signals, threads, file I/O and the models themselves are
outside the model: signals become event logs, model calls and file queries
become parameters.

All modules are given to the verifier together:
`dafny verify *.dfy`.

## Model

| member | source | states |
|---|---|---|
| Labels.NewParent | app_ui/labelsgl.py:16-21 | a new parent carries the given name and id, is unselected and has no children under any image |
| Labels.NormalizeAngle | app_ui/labelsgl.py:277-282 | the normalised angle lies in [0, 360) and differs from the input by a whole number of turns |
| Labels.NormalizeAngleFixesRange | app_ui/labelsgl.py:277-282 | an angle already in [0, 360) is left unchanged |
| Labels.NormalizeAngleIdempotent | app_ui/labelsgl.py:277-282 | normalising twice gives the same angle as normalising once |
| Labels.SetRotationAngle | app_ui/labelsgl.py:259-265 | the stored angle lies in [0, 360) and no other field of the label changes |
| Labels.Rotate | app_ui/labelsgl.py:271-275 | after rotating, the angle lies in [0, 360) and no other field changes |
| Labels.RotateFullTurn | app_ui/labelsgl.py:271-275 | rotating a label by 360 degrees gives back the same label |
| Labels.CenterAndSizeFromPoints | app_ui/labelsgl.py:92-110 | only centre and size change, and they become the mean and the max - min of the x and y halves of the point list |
| Labels.NewChild | app_ui/labelsgl.py:30-90 | a new child copies the parent's name and id, keeps points, polygon, shape, mode and flags, has an angle in [0, 360), and has a radius exactly for a circle with at least 3 values |
| Labels.NewChildConsistent | app_ui/labelsgl.py:52-77 | the centre and size of a new child agree with its points, for every shape the constructor handles |
| Labels.Placeholder | app_ui/labelsgl.py:1073 | the placeholder child is flagged as placeholder, has no points, and carries the parent's class |
| Labels.RectangleFromCorners | app_ui/labelsgl.py:54-55 | a rectangle built from two opposite corners has the midpoint as centre and abs(x2 - x1) by abs(y2 - y1) as size |
| Labels.SizeFromPointsNonNegative | app_ui/labelsgl.py:105-110 | the width and height taken from corners are never negative |
| Labels.Move | app_ui/labelsgl.py:169-201 | move adds dx/dy to the centre, to every x/y of the point list (only the centre of a circle, keeping its radius), and to every polygon vertex; nothing else changes |
| Labels.MoveInverse | app_ui/labelsgl.py:169-201 | moving by (dx, dy) and then by (-dx, -dy) restores the label exactly |
| Labels.MovePreservesConsistency | app_ui/labelsgl.py:169-201 | a label whose centre and size agree with its points still agrees after a move |
| Labels.Scale | app_ui/labelsgl.py:203-257 | scale leaves a placeholder alone, keeps shape, class, angle and list lengths, scales the corner points, and scales the first 8 values of a rectangle |
| Labels.ScaleCentreOnly | app_ui/labelsgl.py:205-208 | shapes whose centre `scale` does not recompute from the geometry keep the centre scaled by the factor |
| Labels.ScaleCircle | app_ui/labelsgl.py:205-217 | a circle with three values has its centre and radius scaled, and its radius, width and height all follow the scaled radius |
| Labels.ScaleShortRectangle | app_ui/labelsgl.py:227-231 | a rectangle with fewer than 8 values keeps its points and has its width and height scaled |
| Labels.ScaleLine | app_ui/labelsgl.py:242-250 | for f >= 0 a line has both end points scaled, stays consistent, and its centre and size are the old ones scaled |
| Labels.ScalePointKeepsPoints | app_ui/labelsgl.py:205-253 | a point keeps its points list and only its centre is scaled, so a consistent point off the origin is no longer consistent after a scale by f != 1 |
| Labels.MidAndSpanScaled | app_ui/labelsgl.py:242-250 | the midpoint and span of two scaled values are the old midpoint and span scaled, for f >= 0 |
| Labels.ScalePtsXsYs | app_ui/labelsgl.py:232-241 | the coordinates of a scaled vertex list are the old coordinates scaled |
| Labels.ScalePolygonBox | app_ui/labelsgl.py:232-241 | after scaling a polygon, its centre is the scaled mean of the old coordinates and its size is the scaled span |
| Labels.ScalePolygon | app_ui/labelsgl.py:232-241 | the polygon branch scales every vertex and leaves points, shape, corners, class and angle unchanged |
| Labels.ScaleRectangle | app_ui/labelsgl.py:219-226 | scaling a consistent 8-value rectangle by f >= 0 scales its corners, centre and size by f and keeps it consistent |
| Labels.RectanglePoints | app_ui/labelsgl.py:118-129 | the four corners are returned exactly for a rectangle with at least 8 values, one per (x, y) pair, and an empty list otherwise |
| Labels.PolygonPointsOf | app_ui/labelsgl.py:546-548 | the polygon is returned only for polygon and polygon_mask shapes, otherwise an empty list |
| Labels.AreaOf | app_ui/labelsgl.py:131-167 | a placeholder has infinite area, a line or point has area 0, and a polygon's finite area is never negative |
| Labels.GetArea | app_ui/labelsgl.py:131-167 | the shoelace loop of get_area computes the value AreaOf defines |
| Labels.PointInPolygon | app_ui/labelsgl.py:683-704 | the ray-casting loop computes the toggle state over all n edges, vertex n being vertex 0 |
| Labels.RayCastRectangle | app_ui/labelsgl.py:683-704 | on an axis-aligned rectangle the ray cast accepts exactly the half-open box (x1, x2] x (y1, y2] |
| Labels.RayCastAboveIsOutside | app_ui/labelsgl.py:695-696 | a point above every vertex is never inside |
| Labels.SegDist2 | app_ui/labelsgl.py:594-618 | the squared point-to-segment distance is never negative |
| Labels.SegPointDist2Expand | app_ui/labelsgl.py:614-618 | the squared distance to the point at parameter t of the segment is the quadratic \|w\|^2 - 2t(v.w) + t^2\|v\|^2 |
| Labels.DegenerateSegment | app_ui/labelsgl.py:604-608 | a segment whose ends coincide has v.v = 0 and v.w = 0 |
| Labels.QuadraticLeastAtZero | app_ui/labelsgl.py:599-603 | when v.w <= 0 the quadratic is least at t = 0 over t >= 0 |
| Labels.QuadraticLeastAtOne | app_ui/labelsgl.py:609-613 | when v.w >= v.v the quadratic is least at t = 1 over t <= 1 |
| Labels.QuadraticLeastAtVertex | app_ui/labelsgl.py:609-618 | for v.v > 0 the quadratic is least at t = v.w / v.v |
| Labels.SegParam | app_ui/labelsgl.py:599-618 | the parameter picked (the projection cut to the nearer end) lies in [0, 1] |
| Labels.SegDist2AtParam | app_ui/labelsgl.py:594-618 | the distance reported is the distance to the point at the picked parameter |
| Labels.SegParamLeast | app_ui/labelsgl.py:599-618 | no parameter in [0, 1] gives a smaller value of the quadratic than the picked one |
| Labels.SegDist2Attained | app_ui/labelsgl.py:594-618 | some point of the segment is at exactly the distance reported |
| Labels.SegDist2Minimal | app_ui/labelsgl.py:594-618 | no point of the segment is nearer than the distance reported |
| Labels.RectangleHitInclusive | app_ui/labelsgl.py:667-679 | an unrotated rectangle drawn from two corners contains exactly the closed box between them |
| Labels.PointHitRadius | app_ui/labelsgl.py:559-572 | a point label is hit exactly within 5 pixels of its position |
| LabelList.KeysMembership | app_ui/labelsgl.py:1077 | a pair is among the list's pairs exactly when some parent carries it |
| LabelList.FirstSelected | app_ui/labelsgl.py:1157-1161 | the index found is selected and no earlier parent is; None means no parent is selected |
| LabelList.SelectedParent | app_ui/labelsgl.py:1146-1150 | get_selected returns a parent exactly when one is selected, and that parent is selected and in the list |
| LabelList.SelectOnlyExactlyOne | app_ui/labelsgl.py:1545-1546 | after selecting k, exactly parent k is selected and it is the first selected one |
| LabelList.SelectOnlyKeepsKeys | app_ui/labelsgl.py:1545-1546 | changing the selection keeps the pairs and their uniqueness |
| LabelList.NextAndPreviousWrap | app_ui/labelsgl.py:1539-1542 | the successor of the last parent is the first and the predecessor of the first is the last |
| LabelList.PreviousUndoesNext | app_ui/labelsgl.py:1526-1590 | select_previous undoes select_next and select_next undoes select_previous |
| LabelList.NewLabel | app_ui/labelsgl.py:1071-1075 | the new parent carries the pair, is unselected, and its only image key holds one placeholder child |
| LabelList.AddLabelResult | app_ui/labelsgl.py:1064-1087 | adding a fresh pair appends one parent, adds exactly its pair, keeps pairs (and names and ids) unique, and leaves the new parent as the only selected one, the others unchanged otherwise |
| LabelList.OldMap | app_ui/labelsgl.py:1102 | old_map has exactly the list's pairs as keys |
| LabelList.SetLabelsKeys | app_ui/labelsgl.py:1104-1120 | set_labels yields one parent per distinct entry pair and no pair twice |
| LabelList.SetLabelsOrigin | app_ui/labelsgl.py:1106-1119 | every parent set_labels yields is unselected and built from one of the entries |
| LabelList.SetLabelsRestores | app_ui/labelsgl.py:1116-1118 | a parent whose pair survives set_labels gets its per-image children back |
| LabelList.Cleared | app_ui/labelsgl.py:1167-1178 | the removed parent keeps its image keys, each with an empty list, and has no children |
| LabelList.DeleteLabelResult | app_ui/labelsgl.py:1162-1191 | removing parent k removes exactly its pair, keeps the others unique and in order, and a non-empty remainder has exactly its last parent selected |
| LabelList.BuildChild | app_ui/labelsgl.py:1237-1296 | the child carries the parent's class and the mode, is visible, takes the given points, and a centre-only point request becomes the list [x, y] |
| LabelList.CentreFormRoundTrip | app_ui/labelsgl.py:1251-1275 | the centre/size form becomes the four corners (xc-w/2, yc-h/2), (xc+w/2, yc-h/2), (xc+w/2, yc+h/2), (xc-w/2, yc+h/2) and the child's centre and size are the requested ones |
| LabelList.AppendChild | app_ui/labelsgl.py:1231-1234 | the child is appended to the list under the image, which is created when missing; every other image list and field is unchanged (see also labelsgl.py line 1298) |
| LabelList.CreateChildKeepsClass | app_ui/labelsgl.py:1237-1298 | creating a child keeps every visible child carrying the parent's class |
| LabelList.RemoveFirstOneCopy | app_ui/labelsgl.py:1343 | list.remove drops exactly one copy of the child, the first, keeping the rest in order |
| LabelList.Owner | app_ui/labelsgl.py:1323-1328 | the parent found is the first one holding the child under the image; None means no parent holds it |
| LabelList.RemoveChild | app_ui/labelsgl.py:1343 | removing a child changes only the list under that image |
| LabelList.RemoveChildKeepsClass | app_ui/labelsgl.py:1343 | deleting a child keeps every visible child carrying the parent's class |
| LabelList.RenamedChildren | app_ui/labelsgl.py:1446-1458 | renaming rewrites the class of every visible child under every image, leaves placeholders alone and keeps every list's length and the image keys |
| LabelList.RenamedCarriesClass | app_ui/labelsgl.py:1453-1458 | after renaming, every visible child carries the new class |
| LabelList.RenameRoundTrip | app_ui/labelsgl.py:1438-1458 | renaming back to the old pair restores the parent |
| LabelList.UpdateLabelKeys | app_ui/labelsgl.py:1442-1447 | the new list's pairs are the old ones with the old pair replaced by the new one, and stay unique unless another row already has the new pair |
| LabelList.HitsMembership | app_ui/labelsgl.py:1489-1494 | a child is collected exactly when some parent holds it under the image, it is visible and it contains the point |
| LabelList.InsertSorted | app_ui/labelsgl.py:1497 | inserting by area into a list sorted by area keeps it sorted |
| LabelList.SortByAreaSorted | app_ui/labelsgl.py:1497 | the sort by get_area is in ascending area order and a permutation of its input |
| LabelList.Smallest | app_ui/labelsgl.py:1497-1511 | there is no smallest hit exactly when there are no hits; otherwise it is a hit whose area is at most every hit's area, and, `sorted` being stable, no earlier hit has an area at most its own |
| LabelList.SortByAreaHead | app_ui/labelsgl.py:1497 | the head of the stable sort by area is the first element of the input that no earlier element ties or beats |
| LabelList.CreateFor | app_ui/labelsgl.py:1226-1298 | with no selected parent nothing changes and no child is made; otherwise exactly the first selected parent gets the built child appended under the image |
| LabelList.ParentLabelList.constructor | app_ui/labelsgl.py:968-971 | a new list is empty, with no pairs and no current image, and consistent |
| LabelList.ParentLabelList.SetCurrentImageInfo | app_ui/labelsgl.py:982-983 | only the current image changes |
| LabelList.ParentLabelList.SelectedIndex | app_ui/labelsgl.py:1157-1161 | the scan returns the first selected index |
| LabelList.ParentLabelList.GetSelected | app_ui/labelsgl.py:1146-1150 | the first selected parent, or None |
| LabelList.ParentLabelList.SetSelection | app_ui/labelsgl.py:1136-1138 | every parent's selected flag becomes "is parent k"; pairs and image are unchanged |
| LabelList.ParentLabelList.AddLabel | app_ui/labelsgl.py:1064-1096 | add_label succeeds exactly when the pair is not in the set and no parent has the name or the id; on failure nothing changes; on success the new parent is appended as the only selected one and its pair is added; consistency is kept |
| LabelList.ParentLabelList.SetLabels | app_ui/labelsgl.py:1098-1121 | the list becomes the entries without repeated pairs, per-image children restored by pair, and the pair set is exactly the new list's pairs |
| LabelList.ParentLabelList.SelectNext | app_ui/labelsgl.py:1526-1567 | false and no change on an empty list; otherwise exactly the successor of the first selected parent (or parent 0) is selected |
| LabelList.ParentLabelList.SelectPrevious | app_ui/labelsgl.py:1569-1610 | false and no change on an empty list; otherwise exactly the predecessor of the first selected parent (or the last one) is selected |
| LabelList.ParentLabelList.DeleteSelectedLabel | app_ui/labelsgl.py:1152-1215 | None and no change when nothing is selected; otherwise the first selected parent is removed and returned cleared, its pair is discarded, and the new last parent is the only selected one |
| LabelList.ParentLabelList.CreateChildLabel | app_ui/labelsgl.py:1217-1303 | None and no change without a selected parent; otherwise the built child is appended under the image of the first selected parent and returned |
| LabelList.ParentLabelList.DeleteChildLabel | app_ui/labelsgl.py:1305-1349 | true exactly when the image (or the current one) is truthy and some parent holds the child under it; then the child is removed from the first such parent's list only, otherwise nothing changes |
| LabelList.ParentLabelList.UpdateLabel | app_ui/labelsgl.py:1421-1469 | false for a row outside the list; the same pair changes nothing; otherwise the row is renamed with its visible children and the pair set trades the old pair for the new one |
| LabelList.ParentLabelList.ChildLabelsAtPoint | app_ui/labelsgl.py:1471-1497 | no hits without a truthy image; otherwise the visible children of that image containing the point, sorted by ascending area |
| LabelList.ParentLabelList.SmallestChildLabelAtPoint | app_ui/labelsgl.py:1499-1511 | the first of the sorted hits, or None when there are none |
| PolygonArea.Pred | algorithms/calculate_anyone_polygoon_area.py:22 | `(i - 1) % cnt` is the predecessor index: cnt - 1 for i = 0, else i - 1 |
| PolygonArea.TrapArea | algorithms/calculate_anyone_polygoon_area.py:16-18 | the area is never negative, and 0 for fewer than 3 points (see also calculate_anyone_polygoon_area.py line 39) |
| PolygonArea.GeneralArea | algorithms/calculate_anyone_polygoon_area.py:16-18 | fewer than 3 points give 0 |
| PolygonArea.CalculatePolygonArea | algorithms/calculate_anyone_polygoon_area.py:6-39 | the accumulator loop, reading each pair with the representation chosen by points[i], computes GeneralArea, which is never negative when no read raises |
| PolygonArea.NoneSticks | algorithms/calculate_anyone_polygoon_area.py:21-35 | once a coordinate read raises, the whole call raises |
| PolygonArea.CalculatePolygonAreaFromTuples | algorithms/calculate_anyone_polygoon_area.py:42-63 | fewer than 3 points give 0; otherwise the call succeeds exactly when every point has two coordinates, and then returns the trapezoid area |
| PolygonArea.BothFormsAgree | algorithms/calculate_anyone_polygoon_area.py:6-63 | on tuple or list points both functions return the same area |
| PolygonArea.TrapIsNegatedShoelace | algorithms/calculate_anyone_polygoon_area.py:20-37 | the predecessor-form sum (x_j + x_i)(y_j - y_i) equals minus the successor-form shoelace sum |
| PolygonArea.TrapAreaIsHalfShoelace | algorithms/calculate_anyone_polygoon_area.py:37-39 | the formula's area is half the absolute shoelace sum |
| PolygonArea.PolygonChildArea | app_ui/labelsgl.py:136-149 | get_area of a polygon child with at least 3 vertices equals this script's area of its vertices |
| PolygonArea.RectangleExample | algorithms/calculate_anyone_polygoon_area.py:69-71 | the rectangle (0,0),(4,0),(4,3),(0,3) has area 12, as the script expects |
| PolygonArea.TriangleExample | algorithms/calculate_anyone_polygoon_area.py:74-76 | the triangle (0,0),(4,0),(2,3) has area 6, as the script expects |
| PolygonArea.HexagonExample | algorithms/calculate_anyone_polygoon_area.py:79-81 | the hexagon (0,0),(2,0),(3,2),(2,4),(0,4),(-1,2) has area 12; the script's comment expects 14 |
| BoundingRect.CalculateBoundingRectangle | algorithms/polygon_bounding_rectangle.py:23-24 | fewer than 3 vertices is the ValueError (None); otherwise the result has four corners (see also polygon_bounding_rectangle.py lines 36-41) |
| BoundingRect.BoundingRectangleIsTight | algorithms/polygon_bounding_rectangle.py:29-41 | the corners come in the order (x_min,y_min),(x_max,y_min),(x_max,y_max),(x_min,y_max), every vertex lies inside, each bound is attained by some vertex, and x_min <= x_max, y_min <= y_max |
| BoundingRect.BoundingRectangleIsSmallest | algorithms/polygon_bounding_rectangle.py:29-33 | any axis-aligned box that encloses every vertex encloses the bounding rectangle |
| ConvexHull.CrossProductAntisymmetric | algorithms/minimum_bounding_rectangle.py:70-82 | swapping the two far points negates the cross product |
| ConvexHull.Leftmost | algorithms/minimum_bounding_rectangle.py:42 | the start point is an input point and no input point is smaller by (x, then y) |
| ConvexHull.NextFrom | algorithms/minimum_bounding_rectangle.py:51-60 | the candidate chosen by the inner loop is always an input point |
| ConvexHull.NextPointLeaves | algorithms/minimum_bounding_rectangle.py:51-60 | the march moves to another point whenever some input point differs from the current one |
| ConvexHull.NextFromStays | algorithms/minimum_bounding_rectangle.py:51-55 | when every input point equals the current point, the march stays there |
| ConvexHull.CalculateConvexHull | algorithms/minimum_bounding_rectangle.py:28-68 | the two nested loops of calculate_convex_hull compute ConvexHullOf, the outer loop bounded by the fuel |
| ConvexHull.ConvexHullIsMarch | algorithms/minimum_bounding_rectangle.py:42-66 | with 3 or more points a returned hull starts at the leftmost point, each vertex is the next point of its predecessor, it stops on returning to the start, and every vertex is an input point |
| ConvexHull.MarchIsUnique | algorithms/minimum_bounding_rectangle.py:47-66 | there is only one closed march from the leftmost point |
| ConvexHull.ConvexHullNoneMeansLonger | algorithms/minimum_bounding_rectangle.py:47-66 | running out of fuel means every closed march is longer than the fuel |
| ConvexHull.ConvexHullFuelIndependent | algorithms/minimum_bounding_rectangle.py:47-66 | more fuel never changes a returned hull |
| ConvexHull.ConvexHullOfFewIsCopy | algorithms/minimum_bounding_rectangle.py:38-39 | fewer than 3 points return a copy of the input |
| ConvexHull.ConvexHullOfOnePoint | algorithms/minimum_bounding_rectangle.py:47-66 | three or more copies of one point give a one-vertex hull |
| ConvexHull.FindMinimumBoundingRectangle | algorithms/minimum_bounding_rectangle.py:159-161 | the fewer-than-2-points ValueError happens exactly for fewer than 2 points |
| ConvexHull.TwoPointsGiveSegment | algorithms/minimum_bounding_rectangle.py:172-187 | two input points give corners [p1, p2, p2, p1], height 0, area 0 and their midpoint as centre |
| ConvexHull.OnePointHullTooSmall | algorithms/minimum_bounding_rectangle.py:167-169 | a hull of one point raises the "cannot compute hull" ValueError |
| ConvexHull.SegmentCorners | algorithms/minimum_bounding_rectangle.py:172-187 | a two-vertex hull yields four corners, each input vertex twice, with height and area 0 |
| DupFilter.IntersectionBounded | sam_ops/auto_label_filter.py:28-36 | the intersection area never exceeds either box's clamped area |
| DupFilter.OverlapLength | sam_ops/auto_label_filter.py:28-33 | the clamped overlap of two intervals is non-negative and no longer than either interval |
| DupFilter.IoUInUnitRange | sam_ops/auto_label_filter.py:28-38 | the IoU always lies in [0, 1] |
| DupFilter.IoUSelf | sam_ops/auto_label_filter.py:28-38 | a box of positive area has IoU 1 with itself |
| DupFilter.AnyDuplicate | sam_ops/auto_label_filter.py:6-41 | the loop finds a duplicate exactly when some visible child with a box has IoU >= 0.5 with the candidate |
| DupFilter.IsDuplicateRect | sam_ops/auto_label_filter.py:1-41 | false without a parent, with a falsy image or a bbox that is not a list of at least 4 values; otherwise true exactly when some visible child of that image (box from 8 points, else polygon, else centre and size) has IoU >= 0.5 with the box |
| DupFilter.IsDuplicatePolygon | sam_ops/auto_label_filter.py:45-87 | false without a parent, with a falsy image or an empty polygon; otherwise the same IoU test on the polygon's bounding box, the size and tolerance parameters unused |
| DupFilter.RectangleIsItsOwnDuplicate | sam_ops/auto_label_filter.py:9-13 | a visible rectangle drawn from two corners is found again when the same corners are offered (see also auto_label_filter.py line 39) |
| Yolov.RoundedCentreClose | inference/yolov_moon.py:62-63 | rounding a box's corners to hundredths moves its centre by at most 0.005 on each axis |
| Yolov.StageOneSound | inference/yolov_moon.py:59-90 | every stage-one detection is a confident box (confidence >= 0.5) with its corners rounded to hundredths, whose rounded centre lies in some prompt box, or it comes from the retry made when no box was kept |
| Yolov.StageOneComplete | inference/yolov_moon.py:59-81 | every confident box whose rounded centre lies in a prompt box is kept by stage one, rounded |
| Yolov.RoundedMember | inference/yolov_moon.py:70-79 | a box in a list appears, rounded, in the rounded list |
| Yolov.RoundedAllSnoc | inference/yolov_moon.py:70-79 | rounding a list with one more box appends that box rounded |
| Yolov.StageOneSnoc | inference/yolov_moon.py:59-81 | the kept list for one more box is the old kept list, plus that box rounded exactly when it is kept |
| Yolov.KeepStep | inference/yolov_moon.py:60-79 | one loop step turns the kept list of the boxes seen so far into the kept list with the next box |
| Yolov.KeepAll | inference/yolov_moon.py:59-79 | the loop over the boxes computes exactly the rounded list of the kept boxes, in order |
| Yolov.YolovOne | inference/yolov_moon.py:30-94 | reports "not loaded" exactly when no model is loaded; otherwise the output is the stage-one selection and success means it is non-empty |
| Yolov.KeepBox | inference/yolov_moon.py:59-80 | a box is kept exactly when it is confident and the centre of its rounded corners lies in some prompt box |
| Yolov.YolovTwo | inference/yolov_moon.py:107-142 | with a model, exactly the confident detections in order; without one, nothing |
| Yolov.FilterResultsByClass | inference/yolov_moon.py:156-174 | keeps the stage-two detections whose class occurs in stage one; empty stage one gives nothing |
| Yolov.ClassFilterMembership | inference/yolov_moon.py:165-168 | a detection survives the class filter exactly when it is in stage two and some stage-one detection has its class |
| Yolov.CropWindow | inference/yolov_moon.py:230-237 | the crop window, when there is one, lies inside the image and is no larger than the visible rectangle |
| Yolov.CropWindowOfInsideRect | inference/yolov_moon.py:230-237 | a visible rectangle inside the image is taken as the crop window unchanged |
| Yolov.CropPlan | inference/yolov_moon.py:203-237 | a crop is planned only in remote-sensing mode, with a canvas showing a pixmap and a readable image |
| Yolov.FullViewNotCropped | inference/yolov_moon.py:224-226 | when the whole pixmap is visible no crop is made |
| Yolov.ClipPrompt | inference/yolov_moon.py:250-264 | a prompt box that survives clipping lies inside the crop, in crop coordinates |
| Yolov.ClippedAll | inference/yolov_moon.py:250-267 | the clipped prompt list is no longer than the input and every box in it lies inside the crop |
| Yolov.ClipPrompts | inference/yolov_moon.py:250-267 | the clipping loop computes exactly the clipped prompt list |
| Yolov.ShiftAll | inference/yolov_moon.py:293-303 | every result box is moved by the crop offset, one for one |
| Yolov.ShiftBack | inference/yolov_moon.py:293-303 | the shift-back loop computes exactly the shifted list |
| Yolov.ClipThenShiftBack | inference/yolov_moon.py:250-264 | a prompt box strictly inside the crop survives clipping and shifting it back restores it (see also yolov_moon.py lines 293-303) |
| Yolov.ShiftedInsideImage | inference/yolov_moon.py:293-303 | a box inside the crop, shifted back, lies inside the image |
| Yolov.YolovInference | inference/yolov_moon.py:190-310 | the whole pipeline (not loaded, crop plan, clip, stage one, stage two, class filter, shift back) returns the boxes and success flag of the reference definition |
| Yolov.InferenceSuccessIffBoxes | inference/yolov_moon.py:305-310 | success is reported exactly when at least one box is returned |
| Yolov.InferenceBoxesFromStageTwo | inference/yolov_moon.py:277-290 | without a crop every returned box is a confident stage-two box whose class stage one saw |
| Yolov.InferenceBoxesMovedBack | inference/yolov_moon.py:277-303 | with a crop every returned box is a confident stage-two box on the crop moved back by the crop offset |
| Yolov.AbandonedCropStillRunsOnCrop | inference/yolov_moon.py:263-290 | when no prompt survives clipping the cropped image is still used, with the unclipped prompts, and the answer is not shifted back |
| Yoloe.ClipWithClasses | inference/yoloe_moon.py:347-360 | the surviving boxes are the crop clip of the prompts; there are never more class ids than boxes |
| Yoloe.ClipKeepsEveryClass | inference/yoloe_moon.py:356-359 | with a class id for every prompt, every surviving box keeps one |
| Yoloe.ClipPromptsWithClasses | inference/yoloe_moon.py:347-360 | the enumerate loop computes exactly the clipped prompts with their ids |
| Yoloe.AdjustPromptWeights | inference/yoloe_moon.py:125-132 | one weight per surviving box: the weight of the same index when there is one, else the default |
| Yoloe.AlignShape | inference/yoloe_moon.py:150-160 | aligning a description or weight list to n boxes yields at most n entries, exactly n from one entry or from at least n, and lists the input cyclically |
| Yoloe.SemanticPromptsOf | inference/yoloe_moon.py:144-170 | the semantic prompt dictionary keeps the boxes and class ids as given |
| Yoloe.SemanticPromptsOneEach | inference/yoloe_moon.py:144-160 | with boxes, a single description and absent or single weights give one description and one weight per box |
| Yoloe.Candidates | inference/yoloe_moon.py:412-435 | one candidate entry per reported box, its corners rounded to hundredths |
| Yoloe.CollectDetections | inference/yoloe_moon.py:406-435 | the loop keeps exactly the rounded candidates whose confidence reaches 0.03, in order |
| Yoloe.DetectionMembership | inference/yoloe_moon.py:412-435 | an entry is kept exactly when some box of confidence >= 0.03 gives it, with its corners rounded to hundredths and the mask of the same index when there are that many |
| Yoloe.PasteRegion | inference/yoloe_moon.py:472-475 | the paste starts at the crop offset and ends within both the image and the crop |
| Yoloe.PasteSize | inference/yoloe_moon.py:476-477 | the pasted width and height are never negative |
| Yoloe.PasteInsideImage | inference/yoloe_moon.py:472-479 | a non-empty paste lies within the image and is no larger than the crop |
| Yoloe.PasteWholeWindow | inference/yoloe_moon.py:472-479 | a crop window inside the image is pasted back whole |
| Yoloe.ShiftItems | inference/yoloe_moon.py:437-484 | one entry out per entry in |
| Yoloe.ShiftBackItems | inference/yoloe_moon.py:437-484 | the loop moves every box back by the crop offset, keeps its confidence and keeps a mask exactly where there was one |
| Yoloe.YoloeInference | inference/yoloe_moon.py:268-486 | `yoloe_inference` answers the reference definition: nothing without a model, else the confident entries of the (possibly cropped) run, moved back after a crop |
| Yoloe.AbandonedCropStillShifted | inference/yoloe_moon.py:361-372 | a crop no prompt survives still runs on the cropped image with the prompts as given, and its entries are still moved back (see also yoloe_moon.py lines 437-484) |
| Yoloe.CropEntriesMovedBack | inference/yoloe_moon.py:412-484 | every entry of a crop run is a confident box of the crop, rounded to hundredths and then moved back by the offset |
| Yoloe.YoloeSemanticInference | inference/yoloe_moon.py:488-708 | `yoloe_semantic_inference` answers the reference definition: crop, carried ids and weights, one description per box, then the semantic call |
| Yoloe.SemanticPromptsAligned | inference/yoloe_moon.py:599-611 | the semantic call receives exactly one description and one weight per prompt box, each description the one given (see also yoloe_moon.py lines 144-160) |
| ObbSam.UiCropInfoOf | sam_ops/OBBSAM.py:156-186 | crop facts are captured only in remote-sensing mode and only with a positive crop size |
| ObbSam.Zip | sam_ops/OBBSAM.py:251 | `zip` pairs points and labels index by index, as many as the shorter list |
| ObbSam.KeptPoints | sam_ops/OBBSAM.py:251-256 | the kept points and labels are equally many, no more than the pairs, and every kept point lies in the crop |
| ObbSam.KeptPointsFromInput | sam_ops/OBBSAM.py:251-256 | each kept point is some input point moved into the crop, carrying that point's label |
| ObbSam.SlightlyOutsideKept | sam_ops/OBBSAM.py:252-254 | a point less than a pixel left of the crop truncates onto column 0 and is kept |
| ObbSam.GridPointRoundTrip | sam_ops/OBBSAM.py:252-256 | an integer point inside the crop is kept, and moving it back gives the point again (see also OBBSAM.py lines 341-342) |
| ObbSam.RemapPoints | sam_ops/OBBSAM.py:249-256 | the zip loop computes exactly the kept points and labels |
| ObbSam.ClipSamBox | sam_ops/OBBSAM.py:267-270 | every coordinate of the moved box is clamped into [0, crop size] |
| ObbSam.RemapPrompts | sam_ops/OBBSAM.py:220-286 | the image choice and the remap of points and box are those of the reference definition |
| ObbSam.RemapInCrop | sam_ops/OBBSAM.py:243-280 | after a non-empty crop window, the image choice and the moved points and box are those of the reference definition |
| ObbSam.ShiftBackOnlyFromCrop | sam_ops/OBBSAM.py:321-342 | results are moved back only when the model ran on the crop, and then by the crop offset |
| ObbSam.BoxTakesPrecedence | sam_ops/OBBSAM.py:292-313 | when a box is set the model receives a box prompt |
| ObbSam.CroppedBoxInsideCrop | sam_ops/OBBSAM.py:266-276 | a box used on the crop lies inside it with positive width and height |
| ObbSam.NoRemoteNoRemap | sam_ops/OBBSAM.py:222-234 | without remote sensing the prompts go unchanged to the whole image and nothing is moved back (see also OBBSAM.py line 286) |
| ObbSam.ShiftPolygon | sam_ops/OBBSAM.py:339-342 | every vertex is moved by the offset, one for one |
| ObbSam.ShiftPolygons | sam_ops/OBBSAM.py:333-342 | one polygon out per polygon in |
| ObbSam.ShiftPolygonsBack | sam_ops/OBBSAM.py:333-342 | the loop over `masks.xy` computes exactly the shifted polygons |
| ObbSam.ShiftPolygonRoundTrip | sam_ops/OBBSAM.py:252-253 | moving a polygon into the crop and back restores it (see also OBBSAM.py lines 341-342) |
| ObbSam.SamObbManager.constructor | sam_ops/OBBSAM.py:26-35 | a new manager holds no points, no labels, no box, is not running and has emitted nothing |
| ObbSam.SamObbManager.ClearPoints | sam_ops/OBBSAM.py:88-93 | points, labels and box are cleared; nothing else changes |
| ObbSam.SamObbManager.ResetForNewInference | sam_ops/OBBSAM.py:95-99 | the prompt buffer is cleared and the running flag dropped |
| ObbSam.SamObbManager.StartInference | sam_ops/OBBSAM.py:125-198 | an error without a model or without an image path; nothing without prompts or while running; otherwise a started event and the running flag |
| ObbSam.SamObbManager.AddPoint | sam_ops/OBBSAM.py:56-86 | refused with an error without a selected parent or a model; otherwise the point is appended with label 1 or 0, and once some label is positive and none runs an inference starts, or, without an image path, an error is emitted and nothing runs |
| ObbSam.SamObbManager.AddBbox | sam_ops/OBBSAM.py:101-123 | the same refusals; otherwise the box is stored with its corners ordered and, unless one runs, an inference starts, or, without an image path, an error is emitted and nothing runs |
| ObbSam.SamObbManager.RunInference | sam_ops/OBBSAM.py:200-407 | the completion event carries the reference result of the buffered prompts; the buffer is cleared and the running flag dropped |
| SamRect.BoxValues | sam_ops/IN_Sam_rect.py:119-127 | a QRectF becomes [left, top, right, bottom]; a list is kept as given |
| SamRect.Padding | sam_ops/IN_Sam_rect.py:300-301 | the padding is at least 3 pixels and otherwise at most 2% of the side |
| SamRect.SanitizeBox | sam_ops/IN_Sam_rect.py:290-319 | a box of fewer than four values is rejected; a kept box has positive size and, with the image size known, lies within the image |
| SamRect.SanitizedBoxEnclosesPadded | sam_ops/IN_Sam_rect.py:300-306 | with the image size known, a box inside the image is kept and grows by the padding on every side unless it meets the image edge |
| SamRect.RoundedBoxIsClose | sam_ops/IN_Sam_rect.py:309-312 | without the image size every corner moves by at most half a pixel |
| SamRect.ScalePolygon | sam_ops/IN_Sam_rect.py:494 | every mask vertex is scaled by the two factors, one for one |
| SamRect.MaskCornerToImageCorner | sam_ops/IN_Sam_rect.py:470-494 | the mask's far corner maps to the image's far corner, and equal sizes leave the polygon unchanged |
| SamRect.PolygonsFor | sam_ops/IN_Sam_rect.py:266-515 | at most one polygon per box |
| SamRect.ShortBoxSkipped | sam_ops/IN_Sam_rect.py:291-295 | a box with fewer than four values emits nothing and leaves the other boxes' polygons as they are |
| SamRect.EmittedPolygonsNonEmpty | sam_ops/IN_Sam_rect.py:459-509 | every emitted polygon has at least one vertex |
| SamRect.SamRectManager.constructor | sam_ops/IN_Sam_rect.py:29-36 | a new manager holds no box and no path, is not running and has emitted nothing |
| SamRect.SamRectManager.SetImagePath | sam_ops/IN_Sam_rect.py:38-44 | only the image path changes |
| SamRect.SamRectManager.ClearBbox | sam_ops/IN_Sam_rect.py:138-141 | only the box is cleared |
| SamRect.SamRectManager.ResetForNewInference | sam_ops/IN_Sam_rect.py:148-151 | the box is cleared and the running flag dropped |
| SamRect.SamRectManager.StartInference | sam_ops/IN_Sam_rect.py:154-185 | an error without a model or a usable image path; nothing without a box or while running; otherwise a started event and the running flag |
| SamRect.SamRectManager.SetBbox | sam_ops/IN_Sam_rect.py:107-136 | False and an error without a model; otherwise True and the box stored; unless one runs, an inference starts for a non-empty box and an existing image path, an empty box starts nothing silently, and a missing path emits an error and starts nothing |
| SamRect.SamRectManager.RunInference | sam_ops/IN_Sam_rect.py:187-230 | a completion event with the box used, or an error when there is no box or the model fails; the box is kept and the running flag dropped |
| SamRect.SamRectManager.ProcessYolovBboxesForPolygon | sam_ops/IN_Sam_rect.py:232-264 | nothing without boxes or a model; otherwise one polygon event per emitted polygon, in box order |
| SamRect.ProcessBboxes | sam_ops/IN_Sam_rect.py:266-515 | the worker loop computes exactly the polygons of the reference definition, skipping rejected boxes |
| AutoRectPen.CreateFromBbox | sam_ops/aotu_rect_pen.py:591-713 | the parent list keeps its length; no child is made exactly when the box is not a list of four values, is not ordered, polygon mode is on or an equal box exists, and then nothing changes |
| AutoRectPen.OptList | sam_ops/aotu_rect_pen.py:686 | the created child, if any, as a list |
| AutoRectPen.CreatedChildIsBox | sam_ops/aotu_rect_pen.py:628-682 | the child made is an automatic rectangle of the target's class with the four corners (x1,y1),(x2,y1),(x2,y2),(x1,y2) and exactly the given box |
| AutoRectPen.SelectionRestored | sam_ops/aotu_rect_pen.py:643-703 | afterwards exactly the parent selected before the call is selected again, or the target when none was |
| AutoRectPen.OnlyTargetImageGrows | sam_ops/aotu_rect_pen.py:669-682 | the child is appended to the target's children of the current image; every other image's children are unchanged |
| AutoRectPen.CreateKeepsKeys | sam_ops/aotu_rect_pen.py:591-713 | the parents' names and ids are unchanged, so distinct keys stay distinct |
| AutoRectPen.SameBoxTwiceCreatesOne | sam_ops/aotu_rect_pen.py:618-625 | offering the same box again creates nothing, because the first child is its duplicate |
| AutoRectPen.CreateAll | sam_ops/aotu_rect_pen.py:196-246 | creating from a list of boxes keeps the parent count and makes at most one child per box |
| AutoRectPen.PolygonModeCreatesNothing | sam_ops/aotu_rect_pen.py:613-616 | in polygon mode no box creates a child |
| AutoRectPen.DictEffect | sam_ops/aotu_rect_pen.py:151-505 | a dict result with status "inference_started" or an error key changes nothing |
| AutoRectPen.ListEffect | sam_ops/aotu_rect_pen.py:570-589 | a list result keeps the parent count |
| AutoRectPen.ItemEffect | sam_ops/aotu_rect_pen.py:579-589 | an entry that is neither a dict nor a list of four values changes nothing |
| AutoRectPen.IgnoredItemsChangeNothing | sam_ops/aotu_rect_pen.py:579-589 | appending such an entry to a list result leaves its effect unchanged |
| AutoRectPen.ResultEffect | sam_ops/aotu_rect_pen.py:100-149 | no image, no selected parent or a result that is neither dict nor list changes nothing |
| AutoRectPen.AutoRectPen.constructor | sam_ops/aotu_rect_pen.py:30-50 | a new pen is enabled, idle, at the default detail level 0.001 and has created nothing |
| AutoRectPen.AutoRectPen.SetEnabled | sam_ops/aotu_rect_pen.py:52-63 | only the enabled flag changes |
| AutoRectPen.AutoRectPen.SetMaskDetailLevel | sam_ops/aotu_rect_pen.py:65-76 | a level in [0.0001, 0.01] is taken, any other is ignored, so the level stays in range |
| AutoRectPen.AutoRectPen.CreateLabelFromBbox | sam_ops/aotu_rect_pen.py:591-713 | the parent list becomes the reference result and the child, if any, is recorded as created |
| AutoRectPen.AutoRectPen.AddRectChild | sam_ops/aotu_rect_pen.py:643-703 | an accepted box adds its child to the target through a temporary selection, and the list and the child are the reference result |
| AutoRectPen.AutoRectPen.CreateLabelsFromBoxes | sam_ops/aotu_rect_pen.py:196-246 | the loop over boxes gives the reference result and appends the children it made |
| AutoRectPen.AutoRectPen.CreateEntry | sam_ops/aotu_rect_pen.py:196-246 | one more box takes the parents and the created children one step further along the run over all boxes |
| AutoRectPen.AutoRectPen.ProcessDictResult | sam_ops/aotu_rect_pen.py:151-505 | the dict branches give the reference effect |
| AutoRectPen.AutoRectPen.ProcessListResult | sam_ops/aotu_rect_pen.py:570-589 | the list loop gives the reference effect |
| AutoRectPen.AutoRectPen.ProcessEntry | sam_ops/aotu_rect_pen.py:570-589 | one more entry takes the parents and the created children one step further along the list run |
| AutoRectPen.AutoRectPen.ProcessItem | sam_ops/aotu_rect_pen.py:570-589 | one entry has the reference effect of a dict, a box list or anything else |
| AutoRectPen.AutoRectPen.CheckInferenceResults | sam_ops/aotu_rect_pen.py:78-149 | nothing happens when disabled, busy or the queue is empty; otherwise the result's reference effect, with the busy flag dropped afterwards |
| AutoPen.Round3 | sam_ops/Aotu_pen.py:112-113 | `round(x, 3)` lies within 0.0005 of x |
| AutoPen.ExtractMaskConfidence | sam_ops/Aotu_pen.py:369-392 | the score at the mask's index when there is one, else 0.5 |
| AutoPen.ReportedConfidence | sam_ops/Aotu_pen.py:330-336 | a confidence is reported exactly when one is given, clamped into [0, 1] and unchanged when already there |
| AutoPen.MaskAreaOf | sam_ops/Aotu_pen.py:94-100 | the shoelace area of the mask polygon is never negative |
| AutoPen.MaskArea | sam_ops/Aotu_pen.py:94-100 | the area loop computes exactly the shoelace area and leaves its index at the last vertex, which later serves as the mask index (see also Aotu_pen.py line 125) |
| AutoPen.NormalisedBox | sam_ops/Aotu_pen.py:307-316 | the normalised centre and size each lie in [0, 1] |
| AutoPen.NormalisedBoxInsideImage | sam_ops/Aotu_pen.py:307-316 | for a box inside the image the clamps change nothing |
| AutoPen.PolygonChildOf | sam_ops/Aotu_pen.py:267-366 | the parent list keeps its length, and nothing changes when no child is made |
| AutoPen.ObbChildOf | sam_ops/Aotu_pen.py:567-679 | the parent list keeps its length; no child without a rectangle, an image, a positive image size or exactly four corners |
| AutoPen.PolygonChildShape | sam_ops/Aotu_pen.py:283-360 | a created child has at least three vertices, no duplicate, and is a polygon-mask child of the selected parent holding exactly the polygon |
| AutoPen.ObbChildShape | sam_ops/Aotu_pen.py:586-671 | a created child is a four-point, maskless polygon of the selected parent holding exactly the rectangle's corners |
| AutoPen.AxisAlignedObb | sam_ops/Aotu_pen.py:451-457 | the axis-aligned rectangle has four corners |
| AutoPen.AxisAlignedObbIsBoundingRectangle | sam_ops/Aotu_pen.py:451-457 | with three or more vertices it is the bounding rectangle: corners in order, every vertex enclosed, each side touched, centre the middle of the diagonal, area width times height |
| AutoPen.MaskStep | sam_ops/Aotu_pen.py:79-136 | a mask whose processing raises leaves the tally as it was |
| AutoPen.MaskStepCountsKeys | sam_ops/Aotu_pen.py:117-134 | a key is recorded only with a created child and never twice, and earlier children stay |
| AutoPen.MasksFoldCountsKeys | sam_ops/Aotu_pen.py:79-136 | over one result's masks, keys and created children stay one to one |
| AutoPen.MaskResultsCountKeys | sam_ops/Aotu_pen.py:67-145 | over a whole call the recorded keys are exactly as many as the created children |
| AutoPen.ShortPolygonSkipped | sam_ops/Aotu_pen.py:85-87 | a polygon with fewer than three vertices adds nothing |
| AutoPen.RepeatedKeySkipped | sam_ops/Aotu_pen.py:117-120 | a mask whose key was already recorded in the call adds nothing |
| AutoPen.ObbStep | sam_ops/Aotu_pen.py:431-520 | an OBB mask whose processing raises leaves the tally as it was |
| AutoPen.ObbsFoldOnlyFourPoint | sam_ops/Aotu_pen.py:394-561 | every child an OBB call creates is a four-point polygon, and a non-positive image size creates nothing |
| AutoPen.AutoPenManager.constructor | sam_ops/Aotu_pen.py:25-46 | the manager works on the given parent list |
| AutoPen.AutoPenManager.CreateChildLabelsFromPolygon | sam_ops/Aotu_pen.py:267-366 | the parent list becomes the reference result; names, ids and the current image are unchanged and validity is kept |
| AutoPen.AutoPenManager.CreateChildLabelsFromObb | sam_ops/Aotu_pen.py:567-679 | the same for the OBB child |
| AutoPen.AutoPenManager.ProcessMasks | sam_ops/Aotu_pen.py:79-141 | the inner mask loop computes exactly the reference fold |
| AutoPen.AutoPenManager.ProcessMaskSamResults | sam_ops/Aotu_pen.py:48-193 | nothing for no results; otherwise the created children and the new list are those of the reference fold over all results |
| AutoPen.AutoPenManager.ProcessObbs | sam_ops/Aotu_pen.py:431-520 | the inner OBB loop computes exactly the reference fold |
| AutoPen.AutoPenManager.ProcessObbSamResults | sam_ops/Aotu_pen.py:394-565 | nothing for no results; otherwise the reference fold over all results |
| AutoPen.MasksFoldStops | sam_ops/Aotu_pen.py:143-145 | once a mask raises, the rest of that result's masks are abandoned |
| AutoPen.ObbsFoldStops | sam_ops/Aotu_pen.py:519-521 | the same for the OBB loop |
| BatchInference.ChosenBoxes | inference/inference_batch_moon.py:28-32 | from a dict the first truthy of "bboxes", "prompts" and "rects" is taken, else the empty list; a list is taken as given (see also inference_batch_moon.py lines 155-158) |
| BatchInference.ValidBoxes | inference/inference_batch_moon.py:36 | there are prompts exactly when the chosen value is a non-empty list (see also inference_batch_moon.py line 160) |
| BatchInference.PromptKeyPriority | inference/inference_batch_moon.py:29 | an empty "bboxes" or "prompts" list falls through to the next key, and a dict without any of the keys has no prompts (see also inference_batch_moon.py line 156) |
| PyNum.Round2 | inference/inference_batch_moon.py:228 | `round(v, 2)` lies within 0.005 of v |
| BatchInference.Rounded2 | inference/inference_batch_moon.py:228 | every coordinate is rounded to two places, one for one |
| BatchInference.ItemOf | inference/inference_batch_moon.py:221-240 | an entry holds the rounded corners, the confidence (0.0 when it does not read) and a mask exactly when there are that many masks |
| BatchInference.ItemsComeFromBoxes | inference/inference_batch_moon.py:221-242 | every kept entry comes from a box whose corners read |
| BatchInference.BoxesWithCornersKept | inference/inference_batch_moon.py:232-242 | every box whose corners read gives an entry |
| BatchInference.AlignedClsIds | inference/inference_batch_moon.py:189-190 | the class ids are kept when there is one per box, else all 0 |
| BatchInference.RunList | inference/inference_batch_moon.py:199 | at least one image is run: the resource list, or the reference image when it is empty |
| BatchInference.ResultsMapContents | inference/inference_batch_moon.py:200-246 | the results map has exactly the run images as keys, each mapped to its entries |
| BatchInference.PathSet | inference/inference_batch_moon.py:94-100 | the set of paths holds exactly the listed paths (see also inference_batch_moon.py line 205) |
| BatchInference.BatchYoloeInference | inference/inference_batch_moon.py:127-258 | `batch_yoloe_inference` answers the reference definition |
| BatchInference.CollectItems | inference/inference_batch_moon.py:216-242 | the loop over the boxes computes exactly the kept entries |
| BatchInference.YoloeBatchBookkeeping | inference/inference_batch_moon.py:160-258 | there is no error exactly when prompts exist and a model is (or becomes) loaded; on error nothing is processed; otherwise every run image is processed, the total is their number and success means some image has an entry |
| BatchInference.YoloePredictorArguments | inference/inference_batch_moon.py:189-213 | each image's entries are those of the predictor called with the reference image, the prompts and the aligned class ids |
| BatchInference.CornersAll | inference/inference_batch_moon.py:79 | the corner lists of the boxes, one for one |
| BatchInference.ItemBoxes | inference/inference_batch_moon.py:79 | the boxes of the entries, one for one |
| BatchInference.BatchYolovInference | inference/inference_batch_moon.py:6-125 | `batch_yolov_inference` answers the reference definition |
| BatchInference.PerImageMapsContents | inference/inference_batch_moon.py:91-100 | both per-image maps have exactly the resource images as keys; stage two is kept as reported (empty when missing) and the filtered map holds the class filter of it |
| BatchInference.MissingBoxesFail | inference/inference_batch_moon.py:36-44 | without prompts the answer is a failure with an error, no boxes and no stage-one results, and lists rather than maps without resources |
| BatchInference.StageOneFailureFallsBack | inference/inference_batch_moon.py:49-88 | when stage one fails the answer falls back to YOLOE: its map with resources, or the boxes it found on the current image without |
| BatchInference.ResourceMapsAndSuccess | inference/inference_batch_moon.py:91-109 | with stage one and resources the answer holds both maps and succeeds exactly when some filtered list is non-empty |
| BatchRectPen.AckAll | sam_ops/batch_rect_pen.py:243-252 | a series of acknowledgements adds the number of successful ones to the count and changes neither the total nor the cancel flag |
| BatchRectPen.BatchRectPenWorker.constructor | sam_ops/batch_rect_pen.py:32-53 | the worker keeps the image and boxes, an absent resource list becomes empty, an absent engine choice follows the skip-YOLOV setting, and the counters start at zero |
| BatchRectPen.BatchRectPenWorker.AckDraw | sam_ops/batch_rect_pen.py:243-252 | the state becomes the acknowledged state; the configuration and events are unchanged |
| BatchRectPen.BatchRectPenWorker.Cancel | sam_ops/batch_rect_pen.py:254-256 | only the cancel flag is set |
| BatchRectPen.BatchRectPenWorker.DeliverAcks | sam_ops/batch_rect_pen.py:243-252 | acknowledgements delivered during a wait update the state as AckAll says |
| BatchRectPen.BatchRectPenWorker.VisitImage | sam_ops/batch_rect_pen.py:70-94 | one image of the loop appends the events of the reference step and counts its draw request (see also batch_rect_pen.py lines 139-175) |
| BatchRectPen.BatchRectPenWorker.ImageLoop | sam_ops/batch_rect_pen.py:70-94 | the loop appends exactly the reference loop's events and reports its draw count and whether it stopped (see also batch_rect_pen.py lines 139-175) |
| BatchRectPen.BatchRectPenWorker.ListRun | sam_ops/batch_rect_pen.py:64-115 | a list run appends the reference run's events and leaves the reference state (see also batch_rect_pen.py lines 119-196) |
| BatchRectPen.BatchRectPenWorker.Run | sam_ops/batch_rect_pen.py:55-241 | `run` appends the reference events and leaves the reference state; the configuration is unchanged |
| BatchRectPen.BatchRectPenWorker.SingleRun | sam_ops/batch_rect_pen.py:198-241 | the single-image path appends the reference events and leaves the reference state; the configuration is unchanged |
| BatchRectPen.LoopOfSnoc | sam_ops/batch_rect_pen.py:70 | the loop over one more image is one more step |
| BatchRectPen.LoopStopsForGood | sam_ops/batch_rect_pen.py:71-74 | once the loop stops on a cancellation, later images add nothing (see also batch_rect_pen.py lines 140-143) |
| BatchRectPen.StepsAppend | sam_ops/batch_rect_pen.py:72 | the progress steps of joined event lists are joined (see also batch_rect_pen.py lines 88, 94) |
| BatchRectPen.LoopStepsInOrder | sam_ops/batch_rect_pen.py:70-94 | every image the loop reaches emits exactly one progress step, numbered 1, 2, ... in order; the loop stops exactly when the flag is seen set before an image, and then its last event is the cancellation (see also batch_rect_pen.py lines 139-175) |
| BatchRectPen.StepsAndDrawsOfOne | sam_ops/batch_rect_pen.py:72 | one event contributes its step or its draw (see also batch_rect_pen.py line 92) |
| BatchRectPen.StepEventsCounts | sam_ops/batch_rect_pen.py:86-94 | an image that is not cancelled gives one step, and a draw exactly when it has boxes (see also batch_rect_pen.py lines 166-175) |
| BatchRectPen.CancelEventsCounts | sam_ops/batch_rect_pen.py:71-74 | a cancelled check gives its step and no draw |
| BatchRectPen.DrawsAppend | sam_ops/batch_rect_pen.py:92 | the draws of joined event lists are joined (see also batch_rect_pen.py line 173) |
| BatchRectPen.LoopDrawsNonEmpty | sam_ops/batch_rect_pen.py:86-92 | the loop asks for a draw exactly once per reached image with boxes, with those boxes, and its count is the number of draws (see also batch_rect_pen.py lines 166-173) |
| BatchRectPen.NoPromptsFailsAtOnce | sam_ops/batch_rect_pen.py:58-60 | without prompt boxes the run fails at once and changes nothing else |
| BatchRectPen.YoloeRunBookkeeping | sam_ops/batch_rect_pen.py:63-115 | a YOLOE run covers the resource list or the image alone, sets the total to that number, and without cancellation finishes with success and the acknowledged count |
| BatchRectPen.ListRunEvents | sam_ops/batch_rect_pen.py:97-115 | a list run's draws are the loop's, and after the loop at most one event follows, which draws nothing (see also batch_rect_pen.py lines 178-196) |
| BatchRectPen.YolovRunDecidesOnce | sam_ops/batch_rect_pen.py:118-175 | the YOLOV path over resources decides once, on the reference image, and every image's boxes then come from the engine it chose |
| BatchRectPen.CancelledListRunStops | sam_ops/batch_rect_pen.py:139-143 | a run cancelled before image c emits steps 1..c and ends with the cancellation |
| BatchRectPen.SingleImageWithoutResult | sam_ops/batch_rect_pen.py:204-218 | the single-image path without a result finishes with processed 0 of total 1 |
| BatchRectPen.SingleImageSucceedsOnAck | sam_ops/batch_rect_pen.py:220-238 | the single-image path with boxes asks for one draw and succeeds exactly when a successful acknowledgement was counted |
| DrawJk.Intersected | app_ui/draw_jk.py:48-52 | an intersection that is reported has positive width and height |
| DrawJk.IntersectedExact | app_ui/draw_jk.py:49 | a pixel lies in the reported intersection exactly when it lies in both rectangles |
| DrawJk.IntersectedNoneMeansDisjoint | app_ui/draw_jk.py:49-52 | when no intersection is reported, no pixel lies in both rectangles |
| DrawJk.VisibleImageRect | app_ui/draw_jk.py:29-55 | no rectangle without a pixmap; a reported rectangle has positive size |
| DrawJk.VisibleRectInsideImage | app_ui/draw_jk.py:42-53 | the visible rectangle lies inside both the image and the scene rectangle of the viewport |
| DrawJk.CropRect | app_ui/draw_jk.py:73-87 | no crop without a pixmap |
| DrawJk.SmallImageTakenWhole | app_ui/draw_jk.py:78-81 | with the size trigger on, an image no larger than the viewport is taken whole |
| DrawJk.CropCache.constructor | app_ui/draw_jk.py:24-26 | the cache starts empty with no image path |
| DrawJk.CropCache.CropCanvasVisibleImage | app_ui/draw_jk.py:58-132 | the result is the fresh crop of the chosen rectangle, hit or miss; the cache is cleared when the image path changes, holds only crops of the current image and stays coherent |
| DrawManage.OnImage | app_ui/label_draw_manage.py:93-98 | the rectangle's start is clamped into [0, width] x [0, height], and a start already there is kept |
| DrawManage.TruncInRange | app_ui/label_draw_manage.py:130-132 | `int()` of a value in [0, hi] stays in [0, hi] |
| DrawManage.ScenePoint | app_ui/label_draw_manage.py:130-132 | with a pixmap the position lies in [0, width] x [0, height]; without one it is kept (see also label_draw_manage.py lines 157-159, 826-829) |
| DrawManage.InPixels | app_ui/label_draw_manage.py:205-206 | with a pixmap the pixel lies inside the image; without one it is kept (see also label_draw_manage.py lines 260-261, 281-282, 1703-1704) |
| DrawManage.ManualRequest | app_ui/label_draw_manage.py:218-245 | a hand-drawn label carries its points, its shape and the manual mode (see also label_draw_manage.py lines 310-361) |
| DrawManage.CreateIfImage | app_ui/label_draw_manage.py:218-232 | a label is created exactly when there is a pixmap and a truthy image key (see also label_draw_manage.py lines 326-342) |
| DrawManage.FlatPoints | app_ui/label_draw_manage.py:1125-1128 | the flat list has two values per anchor |
| DrawManage.FlatPointsCoordinates | app_ui/label_draw_manage.py:1125-1128 | it holds each anchor's x then y, in order |
| DrawManage.BoxesOf | app_ui/label_draw_manage.py:433-447 | never more boxes than detections |
| DrawManage.BoxesOfMembership | app_ui/label_draw_manage.py:435-447 | the collected boxes are exactly the `bbox` values of the detections that have one |
| DrawManage.ExtractionPriority | app_ui/label_draw_manage.py:416-447 | boxes come from a list result, else from a dict's `filtered_results`, else from `yolov_result`'s; a pending, failed or falsy result gives none |
| DrawManage.IgnoredResultsAddNothing | app_ui/label_draw_manage.py:416-457 | such a result, or one without boxes, leaves the labels as they are |
| DrawManage.AutoRequest | app_ui/label_draw_manage.py:525-532 | an inferred box becomes an automatic rectangle with its four corners |
| DrawManage.AutoRects | app_ui/label_draw_manage.py:523-532 | the rectangle loop keeps the parent count |
| DrawManage.AutoChildren | app_ui/label_draw_manage.py:523-532 | at most one rectangle per box |
| DrawManage.AutoRectsAppend | app_ui/label_draw_manage.py:515-532 | with a parent selected, one inferred rectangle per usable box is appended to its list for the image, in box order, and the parent stays selected with its key |
| DrawManage.RectPressStartsInside | app_ui/label_draw_manage.py:80-116 | a press is taken exactly when the UI is unlocked and the left button goes down on an image with a parent selected; it then starts drawing and creates nothing |
| DrawManage.RectReleaseCreatesIff | app_ui/label_draw_manage.py:145-181 | releasing always ends the gesture, and asks for a rectangle exactly when both sides exceed five pixels and the canvas has a pixmap and an image key |
| DrawManage.ReleasedRectangleMatchesPreview | app_ui/label_draw_manage.py:118-143 | the created rectangle has the centre and size of the preview (see also label_draw_manage.py lines 326-361) |
| DrawManage.PointPressInsideImage | app_ui/label_draw_manage.py:187-245 | a point press with an image and a parent is taken, and asks for a point exactly when there is a pixmap and an image key, at a pixel inside the image |
| DrawManage.LinePressStarts | app_ui/label_draw_manage.py:247-272 | a line starts exactly when its clamped start is not the null point, and is anchored there |
| DrawManage.LineReleaseResets | app_ui/label_draw_manage.py:274-308 | releasing a line always resets the gesture, and asks for it exactly when \|dx\| + \|dy\| >= 3 and there is an image key |
| DrawManage.LineReleaseIdle | app_ui/label_draw_manage.py:274-308 | without a line in progress or without a pixmap a release does nothing |
| DrawManage.AnchorLeftPressAppends | app_ui/label_draw_manage.py:836-861 | a left press that does not close the polygon appends the clamped position (see also label_draw_manage.py lines 1218-1227) |
| DrawManage.AnchorRightPressPops | app_ui/label_draw_manage.py:876-893 | a right press removes the last anchor and is not taken on an empty buffer (see also label_draw_manage.py lines 1243-1250) |
| DrawManage.AnchorUndoRestores | app_ui/label_draw_manage.py:836-893 | undoing the anchor just placed gives back the buffer |
| DrawManage.AnchorClosingCreates | app_ui/label_draw_manage.py:863-875 | a press that closes the polygon (three or more anchors, the last within 10 of the first) asks for the label exactly when a pixmap and an image key exist (see also label_draw_manage.py lines 1229-1241) |
| DrawManage.AnchorsClearedOnlyOnCreate | app_ui/label_draw_manage.py:815-895 | a buffer is emptied only by the press that made its label; otherwise it grows or shrinks by at most one (see also label_draw_manage.py lines 1201-1253) |
| DrawManage.SquareThreshold | app_ui/label_draw_manage.py:1739 | for r >= 0, r >= 3 exactly when r * r >= 9 |
| DrawManage.CircleFirstPressSetsCentre | app_ui/label_draw_manage.py:1697-1731 | the first left press sets the centre at the clamped click |
| DrawManage.CircleSecondPress | app_ui/label_draw_manage.py:1733-1751 | the second press ends the gesture and asks for the circle exactly when the radius is at least 3 |
| DrawManage.CircleRightPressCancels | app_ui/label_draw_manage.py:1753-1765 | a right press cancels a circle in progress, and is not taken otherwise |
| DrawManage.LabelDrawManager.constructor | app_ui/label_draw_manage.py:23-55 | no gesture in progress and both anchor buffers empty |
| DrawManage.LabelDrawManager.CreateLabel | app_ui/label_draw_manage.py:218-245 | the parent list becomes the reference result, or is unchanged without an image (see also label_draw_manage.py lines 310-361) |
| DrawManage.LabelDrawManager.HandleMousePress | app_ui/label_draw_manage.py:80-116 | the gesture becomes the reference press outcome |
| DrawManage.LabelDrawManager.HandleMouseMove | app_ui/label_draw_manage.py:118-143 | the preview is the reference preview |
| DrawManage.LabelDrawManager.HandleMouseRelease | app_ui/label_draw_manage.py:145-181 | the gesture and the labels become the reference release outcome |
| DrawManage.LabelDrawManager.PointHuabi | app_ui/label_draw_manage.py:187-216 | the labels become the reference point outcome |
| DrawManage.LabelDrawManager.LineHuabiPress | app_ui/label_draw_manage.py:247-272 | the gesture becomes the reference line press outcome |
| DrawManage.LabelDrawManager.LineHuabiRelease | app_ui/label_draw_manage.py:274-308 | the gesture and labels become the reference line release outcome |
| DrawManage.LabelDrawManager.PressAnchors | app_ui/label_draw_manage.py:815-895 | one anchor press returns the reference buffer and applies its label |
| DrawManage.LabelDrawManager.HandlePolygonPress | app_ui/label_draw_manage.py:815-895 | the polygon buffer and the labels follow the reference anchor press |
| DrawManage.LabelDrawManager.HandlePolygonMaskPress | app_ui/label_draw_manage.py:1201-1253 | the mask buffer and the labels follow the reference anchor press |
| DrawManage.LabelDrawManager.CircleHuabiPress | app_ui/label_draw_manage.py:1675-1770 | the gesture and labels follow the reference circle press |
| DrawManage.LabelDrawManager.AddAutoRects | app_ui/label_draw_manage.py:523-532 | the loop gives exactly the reference rectangles |
| DrawManage.LabelDrawManager.UpdateUiWithInferenceResult | app_ui/label_draw_manage.py:411-545 | the labels become the reference result of the inference answer |
| MoveIt.MovedItemExtent | app_ui/Move_it.py:155-167 | moving an item by (dx, dy) with `setPos` moves the extent the handler measures (position plus bounding rectangle) by the same amount (see also Move_it.py lines 209-211) |
| MoveIt.ClampAxisKeepsInnerMoves | app_ui/Move_it.py:197-206 | a move that stays inside the image is not changed |
| MoveIt.ClampAxisKeepsInside | app_ui/Move_it.py:197-206 | for an item no wider than the image the clamped move keeps it inside, flush with the edge it would have crossed |
| MoveIt.ClampAxisNoOvershoot | app_ui/Move_it.py:197-206 | for an item inside the image the clamped move goes the same way as the drag and no further |
| MoveIt.DragDeltaUnclamped | app_ui/Move_it.py:144-151 | without a pixmap of positive size the drag is not clamped |
| MoveIt.DragKeepsItemInside | app_ui/Move_it.py:151-211 | an item that fits the image ends inside it after the clamped `setPos` move, whatever the mouse delta |
| MoveIt.DragLeavesObbHitArea | app_ui/labelsgl.py:169-201 | the move applied to the child label leaves an OBB's corner points unchanged, and the OBB hit test reads only those corners, so a dragged OBB is hit exactly where it was hit before the drag (see also labelsgl.py lines 622-625 and Move_it.py line 248) |
| MoveIt.MoveSession.constructor | app_ui/Move_it.py:17-30 | a new session is idle |
| MoveIt.MoveSession.Reset | app_ui/Move_it.py:356-371 | disabling the mode leaves the session idle |
| MoveIt.MoveSession.HandlePress | app_ui/Move_it.py:45-116 | a press is taken exactly in pan mode over a labelled shape; it then starts moving that shape, records the click and the item's position |
| MoveIt.MoveSession.HandleMove | app_ui/Move_it.py:118-272 | a move is taken exactly in pan mode while dragging; the item moves by `setPos` and its child label by `move`, both by the clamped delta, the child's OBB corner points stay unchanged, and the last position is updated |
| MoveIt.ClampDrag | app_ui/Move_it.py:140-206 | the step is the reference drag delta: clamped by the item's position plus bounding rectangle on a pixmap of positive size, and unchanged otherwise |
| MoveIt.MoveSession.HandleRelease | app_ui/Move_it.py:274-340 | a release in pan mode while moving leaves the session idle; otherwise nothing changes |
| MoveIt.DragOnce | app_ui/Move_it.py:45-340 | press, one move and release move the child label by the clamped delta, leave its OBB corner points unchanged and leave the session idle |
| ImageResize.TargetFor | algorithms/image_resize.py:65-74 | every threshold maps to a target of at least 1536 x 864 |
| ImageResize.TargetForCases | algorithms/image_resize.py:65-74 | the lookup ignores ASCII case, an unknown name maps to 1920 x 1080, and "16K" and "4K" map to their table entries |
| ImageResize.SideWithinTarget | algorithms/image_resize.py:79-83 | a side scaled by a factor no larger than its ratio does not exceed the target |
| ImageResize.NewSizeWithinTarget | algorithms/image_resize.py:79-83 | the enlarged size never exceeds the target in either dimension |
| ImageResize.RatioAboveOne | algorithms/image_resize.py:79-80 | a side below its target has a ratio above 1 |
| ImageResize.SideGrows | algorithms/image_resize.py:82-83 | a factor of at least 1 does not shrink a side |
| ImageResize.BelowThresholdEnlarges | algorithms/image_resize.py:75-83 | an image below the threshold in both dimensions gets a factor above 1 and grows in both |
| ImageResize.BindingSideMeetsTarget | algorithms/image_resize.py:79-83 | the side with the smaller ratio lands exactly on its target |
| ImageResize.BudgetBindsOnlyAt16k | algorithms/image_resize.py:66-86 | below the 16K threshold the pixel budget of 50,000,000 never refuses a request |
| ImageResize.AdjustStartsIff | algorithms/image_resize.py:45-141 | an enlargement starts exactly when remote sensing is on, an image is shown, it is below the threshold in both dimensions, the new size is within the pixel budget, the path exists and the backup either exists already or its `save` raised no exception (a `False` returned by the save is ignored, algorithms/image_resize.py:95-102) |
| ImageResize.NoResizeAtThreshold | algorithms/image_resize.py:75-78 | an image at or above the threshold in either dimension is not resized |
| ImageResize.SixteenKCanBeRefused | algorithms/image_resize.py:84-86 | an 8K image under the 16K threshold would exceed the pixel budget and is refused |
| ImageResize.WorkerRun | algorithms/image_resize.py:21-36 | the worker fails exactly when the scaled image is null |
| ImageResize.WorkerMatchesPlan | algorithms/image_resize.py:23-34 | for a started request the worker computes the same factor, above 1, and a size between the original and the target (see also image_resize.py lines 79-83) |
| ImageResize.ScaleAll | algorithms/image_resize.py:117-120 | every non-placeholder child is scaled by the factor; placeholders are kept, one for one |
| ImageResize.RescaleParent | algorithms/image_resize.py:113-120 | a parent keeps its key, selection and image keys; only its children of that image change |
| ImageResize.RescaledLabels | algorithms/image_resize.py:115-120 | every parent is rescaled, one for one |
| ImageResize.RescaleTouchesOnlyThatImage | algorithms/image_resize.py:113-120 | a child of another image, or a placeholder, is unchanged; a real child of that image is scaled |
| ImageResize.ScaleChildren | algorithms/image_resize.py:117-120 | the child loop computes exactly the scaled list |
| ImageResize.OnDone | algorithms/image_resize.py:107-126 | after a successful save the labels are the rescaled labels; after a failed save they are unchanged |
| ModelLoader.Normalize | services/global_model_loader.py:43 | normalising a path (`os.path.abspath`) leaves no "", "." or ".." component |
| ModelLoader.NormalizeIdempotent | services/global_model_loader.py:43 | normalising twice is normalising once |
| ModelLoader.PlainNormalized | services/global_model_loader.py:43 | a path already free of "", "." and ".." is its own normal form |
| ModelLoader.AbsPath | services/global_model_loader.py:43-59 | the absolute form of a weight or directory path is free of "", "." and ".." |
| ModelLoader.CommonPath | services/global_model_loader.py:61 | the common leading components are no longer than either path |
| ModelLoader.CommonPathIsDir | services/global_model_loader.py:61 | the common path of a path and a directory is the directory exactly when the directory is a component prefix of the path |
| ModelLoader.LastDot | services/global_model_loader.py:46 | finds the last '.' of a name, or reports that the name has none |
| ModelLoader.Extension | services/global_model_loader.py:46 | the extension (`os.path.splitext`) is empty or starts with '.', and a name of dots only has none |
| ModelLoader.SafeWeightContained | services/global_model_loader.py:39-67 | a weight is safe exactly when it is non-empty, an existing file, has an allowed extension in any ASCII case and its normalised path lies under one of the allowed or frozen-build directories |
| ModelLoader.DotDotJudgedWhereItLands | services/global_model_loader.py:43-62 | a path that climbs out of a directory with ".." is judged where it lands and is not under that directory |
| ModelLoader.ScanAllowed | services/global_model_loader.py:58-65 | the directory loop answers true exactly when some directory contains the path |
| ModelLoader.IsSafeWeight | services/global_model_loader.py:39-67 | `_is_safe_weight` answers exactly the safety predicate |
| ModelLoader.KeptBoxes | services/global_model_loader.py:723-748 | the kept detections are at most as many as the raw boxes |
| ModelLoader.KeptBoxesMembership | services/global_model_loader.py:723-748 | a detection is kept exactly when some raw box is confident enough and its rounded centre lies in an input box, and it carries that box's rounded corners, confidence and class |
| ModelLoader.KeptBoxSource | services/global_model_loader.py:723-748 | every kept detection comes from a raw box that passes the confidence and centre tests |
| ModelLoader.KeptBoxKept | services/global_model_loader.py:723-748 | every raw box that passes the tests is kept |
| ModelLoader.KeptBoxesSound | services/global_model_loader.py:723-748 | every kept detection has four corners, confidence at least the threshold and its centre in an input box |
| ModelLoader.CollectFound | services/global_model_loader.py:723-748 | the box loop keeps exactly the kept detections, in order |
| ModelLoader.DetectorClass | services/global_model_loader.py:606-612 | a weight is loaded as RT-DETR or as YOLO, never anything else |
| ModelLoader.SwitchDetector | services/global_model_loader.py:579-621 | the switch succeeds exactly when the guards pass and the library builds a model, and only then is "yolov" replaced by that model |
| ModelLoader.UnsafeWeightRejected | services/global_model_loader.py:592-603 | an empty, missing or unsafe weight leaves the registry unchanged and reports failure |
| ModelLoader.DetectorFromSafeStep | services/global_model_loader.py:708-717 | rebuilding the detector from a loadable weight keeps the registry within the safe replacements |
| ModelLoader.TryFromOutputs | services/global_model_loader.py:708-753 | the weight loop reports success only with non-empty detections made by the detector it ends with, and otherwise an empty list |
| ModelLoader.TryFromSafe | services/global_model_loader.py:708-753 | the weight loop replaces at most the detector, and only with a model built from a weight that passed the guards |
| ModelLoader.NoWeightsNothingFound | services/global_model_loader.py:690-692 | with no weights the search finds nothing and changes nothing |
| ModelLoader.TryDifferentOutputs | services/global_model_loader.py:675-760 | the search succeeds only with non-empty detections of its final detector, and fails with an empty list |
| ModelLoader.TryDifferentSound | services/global_model_loader.py:675-760 | every detection of a successful search is confident enough and centred in an input box |
| ModelLoader.TryDifferentOnlySafe | services/global_model_loader.py:675-760 | the search leaves every other model alone and the detector as it was or built from a weight that passed the guards |
| ModelLoader.FailedSearchSwitchesBack | services/global_model_loader.py:756-760 | after a failed search the detector is rebuilt from the weight it came from, when that weight still passes the guards |
| ModelLoader.GlobalModelLoader.constructor | services/global_model_loader.py:27-37 | a fresh loader has no models, no SAM paths, no active SAM and is not loading |
| ModelLoader.GlobalModelLoader.LoadAllModels | services/global_model_loader.py:69-81 | the background load starts exactly when nothing is loading and none of "sam", "yoloe", "yolov" is present, and then marks loading |
| ModelLoader.GlobalModelLoader.GetModel | services/global_model_loader.py:517-526 | the model under a name, `None` exactly when the name is absent |
| ModelLoader.GlobalModelLoader.IsModelLoaded | services/global_model_loader.py:528-537 | a name is loaded exactly when `get_model` finds it |
| ModelLoader.GlobalModelLoader.SwitchYolovModel | services/global_model_loader.py:579-621 | the registry after the switch is the one `SwitchDetector` gives; the SAM state is untouched |
| ModelLoader.GlobalModelLoader.TryDifferentYolovWeights | services/global_model_loader.py:675-760 | the search's result and registry are those of `TryDifferent`; the SAM state is untouched |
| ModelLoader.GlobalModelLoader.SelectActiveSam | services/global_model_loader.py:797-816 | succeeds exactly for a loaded "sam2" or "sam3", which then becomes "sam" and the active kind; otherwise nothing changes |
| ModelLoader.GlobalModelLoader.SwitchSamModel | services/global_model_loader.py:623-673 | succeeds exactly when the weight is non-empty, exists, is a safe ".pt" under a SAM directory and loads; it then becomes its variant (SAM 3 by name, else SAM 2) and the active "sam"; on failure nothing changes |
| ModelLoader.GlobalModelLoader.InstallSam | services/global_model_loader.py:646-660 | the new model becomes its variant and the active "sam", its path is recorded, and the registry stays consistent |
| DatasetExport.LabeledImagesMembership | app_ui/dataset_export_dialog.py:90-104 | an image is collected exactly when some parent holds at least one non-placeholder child for it |
| DatasetExport.FindRealChild | app_ui/dataset_export_dialog.py:99-102 | the child loop finds something exactly when the image has a non-placeholder child |
| DatasetExport.CollectFromParent | app_ui/dataset_export_dialog.py:96-102 | the images one parent contributes are exactly its labeled images |
| DatasetExport.CollectLabeledImages | app_ui/dataset_export_dialog.py:90-104 | the collected set is exactly the labeled images of all parents |
| DatasetExport.SplitIndex | app_ui/dataset_export_dialog.py:61-63 | the split index, used as a Python slice bound, never exceeds the number of images |
| DatasetExport.SplitIndexInRange | app_ui/dataset_export_dialog.py:61 | for a ratio in [0, 1] the split index is `int(total * ratio)` itself |
| DatasetExport.SplitEventsExport | app_ui/dataset_export_dialog.py:67-78 | one split's loop exports exactly its images in order and none into the other split |
| DatasetExport.ExportPartitions | app_ui/dataset_export_dialog.py:51-85 | train is the first `int(total * ratio)` shuffled images and val the rest, so each image is exported once into one split; the run ends in success, or in failure with nothing exported when no image is labeled |
| DatasetExport.ProgressBounds | app_ui/dataset_export_dialog.py:69-76 | a split's progress increment `int((i + 1) / total * 50)` lies in [0, 50] |
| DatasetExport.ProgressStep | app_ui/dataset_export_dialog.py:69-76 | the progress increment never goes down from one image to the next |
| DatasetExport.SplitEventsProgress | app_ui/dataset_export_dialog.py:67-78 | the progress reported by one split is its progress sequence |
| DatasetExport.SplitProgressShape | app_ui/dataset_export_dialog.py:67-78 | within one split, progress stays in [base, base + 50] and never goes down |
| DatasetExport.ExportProgress | app_ui/dataset_export_dialog.py:51-85 | one progress value per image, each in [0, 100], never going down over the whole export |
| DatasetExport.Run | app_ui/dataset_export_dialog.py:51-85 | the events of the export loop are exactly the specified export events |
| DatasetExport.ExportSplit | app_ui/dataset_export_dialog.py:67-78 | one split's loop emits exactly that split's events |
| DatasetExport.GrayLevel | app_ui/dataset_export_dialog.py:211-213 | a parent's gray level is 50, 100, 150, 200 for the first four and 255 from the sixth on, always in [50, 255] |
| DatasetExport.GrayMap | app_ui/dataset_export_dialog.py:211-215 | the gray map has exactly the parents' ids as keys |
| DatasetExport.GrayMapLevels | app_ui/dataset_export_dialog.py:211-215 | with distinct ids, each parent maps to the gray level of its own position |
| DatasetExport.BuildGrayMap | app_ui/dataset_export_dialog.py:211-215 | the loop builds exactly the gray map |
| DatasetExport.GrayMapValues | app_ui/dataset_export_dialog.py:211-222 | every parent draws with a level in [50, 255], the default 50 included |
| DatasetExport.ClampPixel | app_ui/dataset_export_dialog.py:342-343 | a clamped coordinate is non-negative, at most size - 1, and unchanged when already in range |
| DatasetExport.ClampedVertices | app_ui/dataset_export_dialog.py:341-344 | one clamped vertex per input vertex, in order |
| DatasetExport.PolygonFill | app_ui/dataset_export_dialog.py:338-349 | a polygon is filled exactly when it has at least three vertices |
| DatasetExport.PolygonFillInside | app_ui/dataset_export_dialog.py:338-349 | every vertex of the filled polygon lies in the image |
| DatasetExport.ClampLoop | app_ui/dataset_export_dialog.py:341-344 | the clamp loop computes exactly the clamped vertices |
| DatasetExport.CircleBoxInside | app_ui/dataset_export_dialog.py:368-377 | the circle's box lies in the image and contains the clamped centre |
| DatasetExport.CircleBoxExact | app_ui/dataset_export_dialog.py:368-377 | a whole-pixel circle that fits in the image has the box (cx - r, cy - r, cx + r, cy + r) |
| DatasetExport.BucketOf | app_ui/dataset_export_dialog.py:857-869 | a label counts as OBB first; it has no counter exactly when it is not an OBB and its shape is outside the table |
| DatasetExport.StatsOf | app_ui/dataset_export_dialog.py:841-870 | the total counts every counted label |
| DatasetExport.BucketsAddUp | app_ui/dataset_export_dialog.py:852-869 | the type counters add up to the total less the labels whose shape has no counter |
| DatasetExport.CountedSize | app_ui/dataset_export_dialog.py:851-853 | every non-placeholder child is counted once, and nothing else |
| DatasetExport.TallyChildren | app_ui/dataset_export_dialog.py:850-869 | the child loop adds each counted child's bucket and reports whether the image has a real child |
| DatasetExport.TallyParent | app_ui/dataset_export_dialog.py:847-869 | one parent's loop adds its counted children and its labeled images |
| DatasetExport.Statistics | app_ui/dataset_export_dialog.py:841-872 | the counters are those of every non-placeholder child of every parent, and the images are exactly the export's labeled images |

## Left out

- Qt widgets, graphics items, pens, colours, status texts and the list widget calls: presentation only; signals that carry data become event logs.
- Threads, locks, `QTimer.singleShot` and the background model loads (`_load_models_in_background`, `_load_sam_model`, `_load_yoloe_model`, `_load_yolo_model`): concurrency is outside the model; `LoadAllModels` records only whether a load starts.
- Floating-point rounding: coordinates are exact reals, so results agree with the program only up to rounding. `round(x, 2)` is modelled as exact half-to-even rounding to hundredths (`PyNum.Round2`). The detectors, batch inference and the model loader apply it wherever the program does, but a value that is a tie in exact arithmetic may not be a tie as a binary float.
- Trigonometry: rotated rectangle and polygon corners (`get_rotated_rect_corners`, `get_rotated_polygon_points`), the rotated branches of `is_point_inside` (taken as a caller-supplied predicate), the rotating-calipers search of `find_minimum_bounding_rectangle` and `_compute_regular_polygon` with the regular-polygon gesture.
- ConvexHull: the `while True` gift-wrapping loop has no bound of its own, so the model takes a fuel bound on the number of hull vertices; a march that has not closed within it yields `None`, and the lemmas about the hull are stated for the marches that close (any two closed marches from the same points agree).
- Model backends: every `predict` or model call, `run_yolov_inference`, the SAM 3 adapter and the library constructors are parameters; so are `cv2.findContours`, `approxPolyDP`, `extract_polygon_from_mask` and `_densify_polygon` (mask polygons arrive as inputs) and `sqrt` in the circle gesture.
- File I/O: image reads, backups and saves, the crop image files and the `temp_crops` clean-up, dataset copying, YOLO label writing, `_create_dataset_info`, JSON writing and the weight-directory listing of `get_yolov_weight_files` (the weights come as a list); `os.path.isfile` and `os.path.exists` are predicates of an environment value.
- Paths are POSIX component lists; Windows drive letters and the `ValueError` of `os.path.commonpath` on mixed drives are not modelled; the frozen-build directories (`sys.executable`, `_MEIPASS`) are fields of the environment value; ASCII-only lower-casing stands for `str.lower`.
- The QSettings lookup of the export dialog and the spin-box range of the train ratio; the ratio is a parameter.
- `random.shuffle` in the export: the shuffled order is a parameter, so every order is covered.
- Dataset export: the per-shape mask dispatch of `_export_image_and_labels`, the PIL rasterisation of polygons and ellipses (only the clamped vertices and the ellipse box are modelled) and the mask file writing.
- Mask pasting in the open-vocabulary detector: only the paste bounds and shapes, not the pixel arrays.
- BatchRectPen: the 15-second sleep-polling wait of `_wait_for_ack`; acknowledgements are a delivered sequence.
- MoveIt: the label-list refresh after a drag, aliasing between the dragged item and its child label (the child is a value) and the Qt `setPos` call.
- MoveIt: the `setRect` and `setPolygon` branches of the move handler (app_ui/Move_it.py:169-189 and 213-245, with the OBB corner update at 226-245) are not modelled: the hit test only yields graphics items, and every graphics item answers `setPos`, `pos` and `boundingRect`, so the first branch is always the one taken; for the same reason the point extent of an item without `boundingRect` (Move_it.py:164-167) and the click position kept for an item without `pos` (Move_it.py:91-92) are not modelled.
- DrawManage: previews and temporary items during drags, the move and preview of polygons and circles, and the SAM hand-off of the polygon flow (`_on_sam_polygon_detected`, the polygon branch of `_update_ui_with_inference_result`, the polygon mode of the automatic rectangle pen).
- ImageResize: the `warned_once` flag and `enlarge_image` (algorithms/image_resize.py:38-43), which only resizes pixels.
- ModelLoader.GlobalModelLoader.SelectActiveSam: `select_active_sam` is a module function on the global loader; it is modelled as a method of the loader itself, and `get_global_model_loader` and `initialize_global_models` are left out.
- PolygonArea.HexagonExample: the example script's comment expects 14 for its hexagon; the shoelace formula gives 12, and the model states 12.
- Labels.CenterAndSizeFromPoints: for a rectangle list with an odd number of values (9 or more), the y-coordinate comprehension of `_update_center_and_size_from_points` (app_ui/labelsgl.py:99) raises `IndexError` on the trailing value. The model builds the centre and size anyway: it takes every even-index value as an x and only complete pairs as ys. The rectangle gestures always build exactly 8 values (`RectCorners`).
- Labels.NewChild: for the same odd rectangle lists, `ChildLabel.__init__` (app_ui/labelsgl.py:54-55) raises where the model returns a label.
- Labels.Scale: for the same odd rectangle lists, the rectangle branch (app_ui/labelsgl.py:219-226) raises after the first eight values are scaled. The model returns the scaled label.
- LabelList.RemoveFirstOneCopy: `list.remove` and `in` (app_ui/labelsgl.py:1326 and 1343) compare child labels by identity, since `ChildLabel` defines no `__eq__`. The model's children are values, so `RemoveFirst` drops the first child equal to the given one in every field. That is the same child unless two distinct children under the same image agree in every field.
- LabelList.Owner: for the same reason, the parent found is the first one holding a child equal to the given one in every field, where the program looks for that very object.
- LabelList.ParentLabelList.DeleteChildLabel: deletes the first child equal in every field to the given one, where the program deletes that very object. Deleting a child that is only a field-for-field copy of a stored one succeeds in the model and fails in the program.
- Exception handlers beyond the modelled error results (`None`, `False`, the empty list) are not modelled.
